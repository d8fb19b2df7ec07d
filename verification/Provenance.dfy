/** What a submission must satisfy to be logged, and who wrote each event of the log. */
module Provenance {
  import opened Basics
  import opened Domain
  import opened Books
  import opened Matching
  import opened MatchTheory
  import opened Canonical
  import opened Sequencing
  import opened Replaying
  import opened LegalLogs
  import opened EngineSpec
  import opened Live
  import opened Steps
  import opened Restart
  import opened Runs
  import opened LogTheory
  import opened Grammar
  import opened Alignment
  import opened Backing

  // ---- The checks of intake, in the program's order ------------------------------------------------

  predicate Times(k: nat, m: nat, x: nat) {
    x == k * m
  }

  lemma MultipleIff(x: nat, m: nat)
    ensures IsMultipleOf(x, m) <==> exists k :: Times(k, m, x)
  {
    if IsMultipleOf(x, m) {
      assert Times(if m == 0 then 0 else x / m, m, x);
    }
    if k: nat :| Times(k, m, x) {
      if m > 0 { MultipleOf(k, m); }
    }
  }

  const CHECKS: nat := 14

  /** The k-th check refuses the order. */
  ghost predicate Refuses(k: nat, markets: map<MarketId, MarketConfig>, s: SignedOrder, nowMs: nat, world: World) {
    match k
    case 0 => s.schemaVersion != 1
    case 1 => |s.marketId.text| == 0
    case 2 => |s.traderId.text| == 0
    case 3 => |s.clientOrderId| == 0
    case 4 => !(s.priceTicks > 0)
    case 5 => !(s.sizeLots > 0)
    case 6 => 0 < s.expiryTsMs <= nowMs
    case 7 => world.verify(s.traderPubkey, OrderHash(CanonicalBytes(s)), s.signature) == BadPublicKey
    case 8 => world.verify(s.traderPubkey, OrderHash(CanonicalBytes(s)), s.signature) == BadSignature
    case 9 => s.traderId != TraderId(HexEncode(s.traderPubkey))
    case 10 => s.marketId !in markets
    case 11 => s.marketId in markets && markets[s.marketId].status != Active
    case 12 => s.marketId in markets && !exists n :: Times(n, markets[s.marketId].tickSize, s.priceTicks)
    case 13 => s.marketId in markets && !exists n :: Times(n, markets[s.marketId].lotSize, s.sizeLots)
    case _ => false
  }

  /** How it says so. */
  function RefusalOf(k: nat, markets: map<MarketId, MarketConfig>, s: SignedOrder, nowMs: nat): Option<OrderError> {
    match k
    case 0 => Some(UnsupportedSchemaVersion(s.schemaVersion))
    case 1 => Some(EmptyMarketId)
    case 2 => Some(EmptyTraderId)
    case 3 => Some(EmptyClientOrderId)
    case 4 => Some(ZeroPrice)
    case 5 => Some(ZeroSize)
    case 6 => Some(OrderExpired(s.expiryTsMs, nowMs))
    case 7 => Some(InvalidPublicKey)
    case 8 => Some(InvalidSignature)
    case 9 => Some(TraderIdMismatch)
    case 10 => Some(MarketNotFound(s.marketId))
    case 11 => Some(MarketNotActive(s.marketId))
    case 12 => if s.marketId in markets then Some(InvalidTick(s.priceTicks, markets[s.marketId].tickSize)) else None
    case 13 => if s.marketId in markets then Some(InvalidLot(s.sizeLots, markets[s.marketId].lotSize)) else None
    case _ => None
  }

  ghost predicate FirstRefusal(k: nat, markets: map<MarketId, MarketConfig>, s: SignedOrder, nowMs: nat, world: World) {
    Refuses(k, markets, s, nowMs, world) && forall j: nat :: j < k ==> !Refuses(j, markets, s, nowMs, world)
  }

  /** Signed by the key its trader id spells, not expired, in an active market, on its grids, nothing empty or zero. */
  ghost predicate Admissible(markets: map<MarketId, MarketConfig>, s: SignedOrder, nowMs: nat, world: World) {
    && world.verify(s.traderPubkey, OrderHash(CanonicalBytes(s)), s.signature) == SignatureOk
    && s.traderId == TraderId(HexEncode(s.traderPubkey))
    && (s.expiryTsMs == 0 || nowMs < s.expiryTsMs)
    && s.marketId in markets && markets[s.marketId].status == Active
    && (exists n :: Times(n, markets[s.marketId].tickSize, s.priceTicks)) && s.priceTicks > 0
    && (exists n :: Times(n, markets[s.marketId].lotSize, s.sizeLots)) && s.sizeLots > 0
    && s.schemaVersion == 1 && s.marketId.text != [] && s.traderId.text != [] && s.clientOrderId != []
  }

  /** The first check that refuses an order decides the answer; an order none refuses is admissible. */
  lemma IntakeDecides(markets: map<MarketId, MarketConfig>, s: SignedOrder, nowMs: nat, world: World)
    ensures var refusal := Validate(markets, s, nowMs, world);
            && (refusal.None? <==> Admissible(markets, s, nowMs, world))
            && (refusal.Some? ==> exists k: nat :: k < CHECKS && FirstRefusal(k, markets, s, nowMs, world)
                                              && RefusalOf(k, markets, s, nowMs) == refusal)
  {
    if s.marketId in markets {
      MultipleIff(s.priceTicks, markets[s.marketId].tickSize);
      MultipleIff(s.sizeLots, markets[s.marketId].lotSize);
    }
    assert s.traderId == TraderId(s.traderId.text);
    var refusal := Validate(markets, s, nowMs, world);
    if refusal.Some? {
      var k := StageOf(refusal.value);
      StageRefuses(markets, s, nowMs, world);
      assert k < CHECKS && FirstRefusal(k, markets, s, nowMs, world);
    }
  }

  function StageOf(e: OrderError): nat {
    match e
    case UnsupportedSchemaVersion(_) => 0
    case EmptyMarketId => 1
    case EmptyTraderId => 2
    case EmptyClientOrderId => 3
    case ZeroPrice => 4
    case ZeroSize => 5
    case OrderExpired(_, _) => 6
    case InvalidPublicKey => 7
    case InvalidSignature => 8
    case TraderIdMismatch => 9
    case MarketNotFound(_) => 10
    case MarketNotActive(_) => 11
    case InvalidTick(_, _) => 12
    case InvalidLot(_, _) => 13
  }

  lemma StageRefuses(markets: map<MarketId, MarketConfig>, s: SignedOrder, nowMs: nat, world: World)
    requires Validate(markets, s, nowMs, world).Some?
    requires s.marketId in markets ==>
               (IsMultipleOf(s.priceTicks, markets[s.marketId].tickSize)
                <==> exists n :: Times(n, markets[s.marketId].tickSize, s.priceTicks))
               && (IsMultipleOf(s.sizeLots, markets[s.marketId].lotSize)
                   <==> exists n :: Times(n, markets[s.marketId].lotSize, s.sizeLots))
    ensures var e := Validate(markets, s, nowMs, world).value;
            FirstRefusal(StageOf(e), markets, s, nowMs, world) && RefusalOf(StageOf(e), markets, s, nowMs) == Some(e)
  {
    assert s.traderId == TraderId(s.traderId.text);
  }

  // ---- Which submissions are logged ------------------------------------------------------------------

  ghost predicate KeyUsed(log: seq<SequencedEvent>, key: IdempotencyKey) {
    exists i :: 0 <= i < |log| && log[i].event.OrderAccepted? && KeyOf(log[i].event.order.terms) == key
  }

  predicate AcceptsFrom(e: Event, trader: TraderId) {
    e.OrderAccepted? && e.order.terms.traderId == trader
  }

  /** Every order the log accepted from the trader has a lower nonce, and the nonce is not 0. */
  ghost predicate NonceRises(log: seq<SequencedEvent>, trader: TraderId, nonce: nat) {
    nonce > 0 && forall i :: 0 <= i < |log| && AcceptsFrom(log[i].event, trader) ==>
                   log[i].event.order.terms.nonce < nonce
  }

  lemma NonceIff(log: seq<SequencedEvent>, trader: TraderId, nonce: nat)
    requires LegalLog(log)
    ensures Replayed(log).Ok?
    ensures nonce > Lookup(Replayed(log).value.ledger.nonces, trader, 0) <==> NonceRises(log, trader, nonce)
  {
    NonceIsLast(log, trader);
    if trader in Replayed(log).value.ledger.nonces {
      var i :| LastOf(log, i, trader)
        && Replayed(log).value.ledger.nonces[trader] == log[i].event.order.terms.nonce;
      forall j | 0 <= j < |log| && AcceptsFrom(log[j].event, trader)
        ensures log[j].event.order.terms.nonce <= log[i].event.order.terms.nonce
      {
        if j < i { AcceptancesOrdered(log, j, i); }
      }
    }
  }

  /** Intake as the log tells it. */
  ghost predicate Admits(v: EngineView, s: SignedOrder, nowMs: nat, world: World) {
    && Admissible(v.markets, s, nowMs, world)
    && !KeyUsed(v.log, IdempotencyKey(s.traderId, s.clientOrderId))
    && NonceRises(v.log, s.traderId, s.nonce)
  }

  lemma PassesAdmits(v: EngineView, s: SignedOrder, nowMs: nat, world: World)
    requires Inv(v)
    ensures Passes(v, s, nowMs, world) <==> Admits(v, s, nowMs, world)
  {
    IntakeDecides(v.markets, s, nowMs, world);
    TableIsLog(v, IdempotencyKey(s.traderId, s.clientOrderId));
    NonceIff(v.log, s.traderId, s.nonce);
  }

  /** The logged order is the submitted one, field by field, unfilled and open. */
  predicate Records(o: Order, s: SignedOrder, nowMs: nat, id: OrderId, seqId: nat) {
    && o.terms.orderId == id && o.terms.createdSequence == seqId && o.terms.acceptedAtMs == nowMs
    && o.terms.orderHash == OrderHash(CanonicalBytes(s))
    && o.terms.clientOrderId == s.clientOrderId && o.terms.marketId == s.marketId
    && o.terms.traderId == s.traderId && o.terms.traderPubkey == s.traderPubkey
    && o.terms.side == s.side && o.terms.price == s.priceTicks && o.terms.size == s.sizeLots
    && o.terms.timeInForce == s.timeInForce && o.terms.nonce == s.nonce && o.terms.expiryTsMs == s.expiryTsMs
    && o.filled == 0 && o.status == Open && o.lastUpdate == seqId
  }

  /** A submission enters the log exactly if intake admits it, as what was signed; anything else leaves it as it was. */
  lemma LoggedExactly(v: EngineView, s: SignedOrder, nowMs: nat, freshId: OrderId, world: World)
    requires Inv(v)
    ensures var v' := Submit(v, s, nowMs, freshId, world).0;
            && (!Admits(v, s, nowMs, world) ==> v' == v)
            && (Admits(v, s, nowMs, world) ==>
                  && |v.log| < |v'.log| && v.log <= v'.log && v'.log[|v.log|].event.OrderAccepted?
                  && Records(v'.log[|v.log|].event.order, s, nowMs, freshId, |v.log| + 1))
  {
    PassesAdmits(v, s, nowMs, world);
    SubmitCases(v, s, nowMs, freshId, world);
    if Passes(v, s, nowMs, world) { AdmittedFirst(v, NewOrder(s, freshId, v.nextSeqId, nowMs), nowMs, world); }
  }

  lemma AdmittedFirst(v: EngineView, o: Order, nowMs: nat, world: World)
    ensures var log := AcceptOrder(v, o, nowMs, world).0.log;
            && |v.log| < |log| && v.log <= log
            && log[|v.log|] == SequencedEvent(v.nextSeqId, world.wall(v.nextSeqId), OrderAccepted(o))
  {
    if o.terms.marketId in v.books { AcceptedLog(v, o, nowMs, world); }
  }

  // ---- Who wrote an event ----------------------------------------------------------------------------

  /** The acceptance of the order, if this is its owner and market. */
  ghost predicate AcceptedFor(log: seq<SequencedEvent>, id: OrderId, trader: TraderId, market: MarketId,
                              hash: OrderHash)
  {
    exists a :: AcceptedBy(log, a, id) && log[a].event.order.terms.traderId == trader
      && log[a].event.order.terms.marketId == market && log[a].event.order.terms.orderHash == hash
  }

  /** The operation, performed on this engine, is the reason for the event. */
  ghost predicate Explains(v: EngineView, op: Op, world: World, e: Event, i: nat) {
    match e
    case OrderAccepted(o) =>
      && op.OpSubmit? && i == |v.log| && Admits(v, op.signed, op.nowMs, world)
      && Records(o, op.signed, op.nowMs, op.freshId, i + 1)
    case FillEvent(f) =>
      && op.OpSubmit? && i > |v.log| && Admits(v, op.signed, op.nowMs, world)
      && f.takerOrderId == op.freshId && f.sequenceId == |v.log| + 1 && f.executedAtMs == op.nowMs
    case OrderCancelled(id, hash, reason) =>
      (match reason
       case TraderRequest =>
         op.OpCancel? && op.orderId == id && exists m :: AcceptedFor(v.log, id, op.traderId, m, hash)
       case SelfTradePrevention =>
         && op.OpSubmit? && i > |v.log| && Admits(v, op.signed, op.nowMs, world)
         && id == op.freshId && hash == OrderHash(CanonicalBytes(op.signed))
       case AdminForce => op.OpCancelAll? && exists t :: AcceptedFor(v.log, id, t, op.marketId, hash)
       case Expired => false)
    case OrderRejected(_, _, _) => false
    case MarketPaused(m, who) => op == OpPause(m, who) && m in v.markets && v.markets[m].status == Active
    case MarketResumed(m, who) => op == OpResume(m, who) && m in v.markets && v.markets[m].status == Paused
  }

  /** Numbered by its place, stamped with the wall clock of that number, and explained by the operation. */
  ghost predicate Wrote(v: EngineView, op: Op, world: World, se: SequencedEvent, i: nat) {
    se.seqId == i + 1 && se.timestampMs == world.wall(i + 1) && Explains(v, op, world, se.event, i)
  }

  ghost predicate AllWritten(v: EngineView, op: Op, world: World, log: seq<SequencedEvent>) {
    v.log <= log && forall i :: |v.log| <= i < |log| ==> Wrote(v, op, world, log[i], i)
  }

  lemma FillsStamped(book: Orders, o: Order, nowMs: nat)
    requires BookOk(book) && Arriving(o)
    ensures var m := Match(book, o, o.terms.createdSequence, nowMs);
            && m.taker.terms == o.terms
            && forall k :: 0 <= k < |m.fills| ==>
                 && m.fills[k].takerOrderId == o.terms.orderId
                 && m.fills[k].sequenceId == o.terms.createdSequence && m.fills[k].executedAtMs == nowMs
  {
    MakersAreMakers(book, o);
    WalkFills(book, o, Makers(book, o), o.terms.createdSequence, nowMs);
    WalkFrame(book, o, Makers(book, o), o.terms.createdSequence, nowMs);
  }

  /** A fill of this order or its self-trade cancel. */
  predicate Belongs(o: Order, nowMs: nat, e: Event) {
    match e
    case FillEvent(f) =>
      f.takerOrderId == o.terms.orderId && f.sequenceId == o.terms.createdSequence && f.executedAtMs == nowMs
    case OrderCancelled(id, hash, reason) =>
      id == o.terms.orderId && hash == o.terms.orderHash && reason == SelfTradePrevention
    case _ => false
  }

  ghost predicate TailOf(tail: seq<SequencedEvent>, o: Order, nowMs: nat, next: nat, wall: nat -> nat) {
    forall k :: 0 <= k < |tail| ==>
      tail[k].seqId == next + k && tail[k].timestampMs == wall(next + k) && Belongs(o, nowMs, tail[k].event)
  }

  lemma TailEvents(book: Orders, o: Order, nowMs: nat, next: nat, wall: nat -> nat)
    requires BookOk(book) && Arriving(o)
    ensures TailOf(MatchTail(book, o, nowMs, next, wall), o, nowMs, next, wall)
  {
    var m := Match(book, o, o.terms.createdSequence, nowMs);
    var tail := MatchTail(book, o, nowMs, next, wall);
    FillsStamped(book, o, nowMs);
    forall k | 0 <= k < |tail| ensures Belongs(o, nowMs, tail[k].event) {
      if k < |m.fills| {
        assert tail[k].event == FillEvent(m.fills[k]);
      } else {
        assert tail[k].event == OrderCancelled(o.terms.orderId, o.terms.orderHash, SelfTradePrevention);
      }
    }
  }

  lemma BelongsExplains(v: EngineView, op: Op, world: World, o: Order, e: Event, i: nat)
    requires op.OpSubmit? && i > |v.log| && Admits(v, op.signed, op.nowMs, world)
    requires Records(o, op.signed, op.nowMs, op.freshId, |v.log| + 1) && Belongs(o, op.nowMs, e)
    ensures Explains(v, op, world, e, i)
  {
  }

  lemma TailWritten(v: EngineView, op: Op, world: World, o: Order, tail: seq<SequencedEvent>)
    requires op.OpSubmit? && Admits(v, op.signed, op.nowMs, world)
    requires Records(o, op.signed, op.nowMs, op.freshId, |v.log| + 1)
    requires TailOf(tail, o, op.nowMs, |v.log| + 2, world.wall)
    ensures forall k :: 0 <= k < |tail| ==> Wrote(v, op, world, tail[k], |v.log| + 1 + k)
  {
    forall k | 0 <= k < |tail| ensures Wrote(v, op, world, tail[k], |v.log| + 1 + k) {
      BelongsExplains(v, op, world, o, tail[k].event, |v.log| + 1 + k);
    }
  }

  lemma BlockWritten(v: EngineView, op: Op, world: World, accepted: SequencedEvent, tail: seq<SequencedEvent>)
    requires Wrote(v, op, world, accepted, |v.log|)
    requires forall k :: 0 <= k < |tail| ==> Wrote(v, op, world, tail[k], |v.log| + 1 + k)
    ensures AllWritten(v, op, world, v.log + [accepted] + tail)
  {
    var log := v.log + [accepted] + tail;
    forall i | |v.log| <= i < |log| ensures Wrote(v, op, world, log[i], i) {
      if i > |v.log| { assert log[i] == tail[i - |v.log| - 1]; }
    }
  }

  lemma SubmitWritten(v: EngineView, op: Op, world: World)
    requires Inv(v) && op.OpSubmit? && Passes(v, op.signed, op.nowMs, world)
    ensures var o := NewOrder(op.signed, op.freshId, v.nextSeqId, op.nowMs);
            AllWritten(v, op, world, AcceptOrder(v, o, op.nowMs, world).0.log)
  {
    var o := NewOrder(op.signed, op.freshId, v.nextSeqId, op.nowMs);
    var accepted := SequencedEvent(v.nextSeqId, world.wall(v.nextSeqId), OrderAccepted(o));
    PassesAdmits(v, op.signed, op.nowMs, world);
    if o.terms.marketId in v.books {
      BookIsOk(v, o.terms.marketId);
      NewArrives(v, op.signed, op.nowMs, op.freshId, world);
      AcceptedLog(v, o, op.nowMs, world);
      var tail := MatchTail(v.books[o.terms.marketId], o, op.nowMs, v.nextSeqId + 1, world.wall);
      TailEvents(v.books[o.terms.marketId], o, op.nowMs, v.nextSeqId + 1, world.wall);
      TailWritten(v, op, world, o, tail);
      BlockWritten(v, op, world, accepted, tail);
    } else {
      BlockWritten(v, op, world, accepted, []);
      assert v.log + [accepted] + [] == v.log + [accepted];
    }
  }

  /** The log accepted every order of a book, with these terms. */
  lemma BookOrderAccepted(v: EngineView, market: MarketId, id: OrderId)
    requires Inv(v) && market in v.books && id in v.books[market]
    ensures var t := v.books[market][id].terms;
            t.marketId == market && AcceptedFor(v.log, id, t.traderId, market, t.orderHash)
  {
    var w := WorkingOf(v);
    assert BookTracks(v.books[market], market, w);
    LogFacts(v);
    var a :| AcceptedBy(v.log, a, id);
    assert AcceptanceKnown(v.log[a], w.orders);
  }

  lemma OneWritten(v: EngineView, op: Op, world: World, e: Event)
    requires v.nextSeqId == |v.log| + 1 && Explains(v, op, world, e, |v.log|)
    ensures AllWritten(v, op, world, AppendOne(v, e, world.wall).log)
  {
  }

  lemma CancelWritten(v: EngineView, op: Op, world: World)
    requires Inv(v) && op.OpCancel?
    ensures AllWritten(v, op, world, Cancel(v, op.orderId, op.traderId, world).0.log)
  {
    var v' := Cancel(v, op.orderId, op.traderId, world).0;
    if v'.log != v.log {
      var m, id := v.index[op.orderId], op.orderId;
      BookOrderAccepted(v, m, id);
      OneWritten(v, op, world, OrderCancelled(id, v.books[m][id].terms.orderHash, TraderRequest));
    }
  }

  lemma StatusWritten(v: EngineView, op: Op, world: World)
    requires Inv(v) && (op.OpPause? || op.OpResume?)
    ensures AllWritten(v, op, world, Step(v, op, world).0.log)
  {
    if op.OpPause? && Pause(v, op.marketId, op.triggeredBy, world).0 != v {
      OneWritten(v, op, world, MarketPaused(op.marketId, op.triggeredBy));
    } else if op.OpResume? && Resume(v, op.marketId, op.triggeredBy, world).0 != v {
      OneWritten(v, op, world, MarketResumed(op.marketId, op.triggeredBy));
    }
  }

  // ---- What cancel-all selects ---------------------------------------------------------------------------

  /** The i-th event accepted an order in the market. */
  ghost predicate AcceptsIn(log: seq<SequencedEvent>, market: MarketId, i: int) {
    0 <= i < |log| && log[i].event.OrderAccepted? && log[i].event.order.terms.marketId == market
  }

  ghost function AcceptancesIn(log: seq<SequencedEvent>, market: MarketId): set<int> {
    set i | 0 <= i < |log| && AcceptsIn(log, market, i)
  }

  ghost predicate Targeted(log: seq<SequencedEvent>, market: MarketId, t: (OrderId, OrderHash)) {
    exists i :: AcceptsIn(log, market, i) && log[i].event.order.terms.orderId == t.0
      && log[i].event.order.terms.orderHash == t.1
  }

  lemma TargetedMore(log: seq<SequencedEvent>, market: MarketId, t: (OrderId, OrderHash))
    requires log != []
    ensures var n := |log| - 1;
            Targeted(log, market, t) <==>
              Targeted(log[..n], market, t)
              || (AcceptsIn(log, market, n)
                  && t == (log[n].event.order.terms.orderId, log[n].event.order.terms.orderHash))
  {
    var n := |log| - 1;
    if Targeted(log, market, t) {
      var i :| AcceptsIn(log, market, i) && log[i].event.order.terms.orderId == t.0
        && log[i].event.order.terms.orderHash == t.1;
      if i < n { assert AcceptsIn(log[..n], market, i); }
    }
    if Targeted(log[..n], market, t) {
      var i :| AcceptsIn(log[..n], market, i) && log[..n][i].event.order.terms.orderId == t.0
        && log[..n][i].event.order.terms.orderHash == t.1;
      assert AcceptsIn(log, market, i);
    }
  }

  /** Exactly the orders the log accepted in the market, each once. */
  lemma {:induction false} SelectsExactly(log: seq<SequencedEvent>, market: MarketId)
    requires LegalLog(log)
    ensures forall t :: t in AcceptedIn(log, market) <==> Targeted(log, market, t)
    ensures |AcceptedIn(log, market)| == |AcceptancesIn(log, market)|
    ensures forall j, k :: 0 <= j < k < |AcceptedIn(log, market)| ==>
              AcceptedIn(log, market)[j].0 != AcceptedIn(log, market)[k].0
    decreases |log|
  {
    if log == [] {
    } else {
      var n := |log| - 1;
      LastStep(log);
      LegalAt(log, n);
      SelectsExactly(log[..n], market);
      forall t ensures Targeted(log, market, t) <==>
                         Targeted(log[..n], market, t)
                         || (AcceptsIn(log, market, n)
                             && t == (log[n].event.order.terms.orderId, log[n].event.order.terms.orderHash))
      {
        TargetedMore(log, market, t);
      }
      CountsMore(log, market);
      if AcceptsIn(log, market, n) { NewTarget(log, log[..n], market); }
    }
  }

  lemma CountsMore(log: seq<SequencedEvent>, market: MarketId)
    requires log != []
    ensures var n := |log| - 1;
            |AcceptancesIn(log, market)|
            == |AcceptancesIn(log[..n], market)| + if AcceptsIn(log, market, n) then 1 else 0
  {
    var n := |log| - 1;
    forall i ensures i in AcceptancesIn(log, market) <==>
                       i in AcceptancesIn(log[..n], market) || (i == n && AcceptsIn(log, market, n))
    {
      assert i < n ==> (AcceptsIn(log, market, i) <==> AcceptsIn(log[..n], market, i));
    }
    if AcceptsIn(log, market, n) {
      assert AcceptancesIn(log, market) == AcceptancesIn(log[..n], market) + {n};
    } else {
      assert AcceptancesIn(log, market) == AcceptancesIn(log[..n], market);
    }
  }

  lemma NewTarget(log: seq<SequencedEvent>, before: seq<SequencedEvent>, market: MarketId)
    requires LegalLog(log) && log != [] && AcceptsIn(log, market, |log| - 1) && before == log[..|log| - 1]
    requires forall t :: t in AcceptedIn(before, market) ==> Targeted(before, market, t)
    ensures forall t :: t in AcceptedIn(before, market) ==> t.0 != log[|log| - 1].event.order.terms.orderId
  {
    var n := |log| - 1;
    forall t | t in AcceptedIn(before, market) ensures t.0 != log[n].event.order.terms.orderId {
      var i :| AcceptsIn(before, market, i) && before[i].event.order.terms.orderId == t.0
        && before[i].event.order.terms.orderHash == t.1;
      AcceptancesOrdered(log, i, n);
    }
  }

  // ---- Forced cancels -------------------------------------------------------------------------------------

  function ForceEvents(targets: seq<(OrderId, OrderHash)>): (r: seq<Event>)
    ensures |r| == |targets|
  {
    seq(|targets|, i requires 0 <= i < |targets| => OrderCancelled(targets[i].0, targets[i].1, AdminForce))
  }

  lemma {:induction false} ForceCancelsLog(v: EngineView, targets: seq<(OrderId, OrderHash)>, world: World)
    ensures var v' := ForceCancels(v, targets, world);
            && v'.log == v.log + Stamp(v.nextSeqId, ForceEvents(targets), world.wall)
            && v'.nextSeqId == v.nextSeqId + |targets|
    decreases |targets|
  {
    if targets == [] {
    } else {
      var rest, last := targets[..|targets| - 1], targets[|targets| - 1];
      ForceCancelsLog(v, rest, world);
      assert ForceEvents(targets) == ForceEvents(rest) + [OrderCancelled(last.0, last.1, AdminForce)];
      StampConcat(v.nextSeqId, ForceEvents(rest), [OrderCancelled(last.0, last.1, AdminForce)], world.wall);
    }
  }

  lemma EventsWritten(v: EngineView, op: Op, world: World, events: seq<Event>)
    requires v.nextSeqId == |v.log| + 1
    requires forall k :: 0 <= k < |events| ==> Explains(v, op, world, events[k], |v.log| + k)
    ensures AllWritten(v, op, world, v.log + Stamp(v.nextSeqId, events, world.wall))
  {
  }

  lemma ForceWritten(v: EngineView, op: Op, world: World)
    requires Inv(v) && op.OpCancelAll?
    ensures AllWritten(v, op, world, CancelAll(v, op.marketId, world).0.log)
  {
    if op.marketId in v.markets {
      var targets := AcceptedIn(v.log, op.marketId);
      ForceCancelsLog(v, targets, world);
      SelectsExactly(v.log, op.marketId);
      forall k | 0 <= k < |targets| ensures Explains(v, op, world, ForceEvents(targets)[k], |v.log| + k) {
        assert targets[k] in targets;
        TargetExplains(v, op, world, targets[k], |v.log| + k);
      }
      EventsWritten(v, op, world, ForceEvents(targets));
    }
  }

  lemma TargetAccepted(log: seq<SequencedEvent>, market: MarketId, t: (OrderId, OrderHash))
    requires Targeted(log, market, t)
    ensures exists trader :: AcceptedFor(log, t.0, trader, market, t.1)
  {
    var i :| AcceptsIn(log, market, i) && log[i].event.order.terms.orderId == t.0
      && log[i].event.order.terms.orderHash == t.1;
    assert AcceptedBy(log, i, t.0);
    assert AcceptedFor(log, t.0, log[i].event.order.terms.traderId, market, t.1);
  }

  lemma TargetExplains(v: EngineView, op: Op, world: World, t: (OrderId, OrderHash), i: nat)
    requires op.OpCancelAll? && Targeted(v.log, op.marketId, t)
    ensures Explains(v, op, world, OrderCancelled(t.0, t.1, AdminForce), i)
  {
    TargetAccepted(v.log, op.marketId, t);
  }

  // ---- Every event of every run ----------------------------------------------------------------------------

  lemma StepWritten(v: EngineView, op: Op, world: World)
    requires Inv(v)
    ensures AllWritten(v, op, world, Step(v, op, world).0.log)
  {
    if op.OpSubmit? {
      SubmitCases(v, op.signed, op.nowMs, op.freshId, world);
      if Passes(v, op.signed, op.nowMs, world) { SubmitWritten(v, op, world); }
    } else if op.OpCancel? {
      CancelWritten(v, op, world);
    } else if op.OpCancelAll? {
      ForceWritten(v, op, world);
    } else if op.OpRestart? {
      RestartedLog(v);
    } else if op.OpPause? || op.OpResume? {
      StatusWritten(v, op, world);
    }
  }

  lemma {:induction false} RunGrows(v: EngineView, ops: seq<Op>, world: World)
    requires CanRun(v, ops, world)
    ensures v.log <= Run(v, ops, world).log
    decreases |ops|
  {
    if ops == [] {
    } else {
      FirstStep(v, ops, world);
      StepWritten(v, ops[0], world);
      RunGrows(Step(v, ops[0], world).0, ops[1..], world);
    }
  }

  /**
   * Every event a run logs has one of its operations for a reason: an acceptance records a submission that
   * intake admitted, a fill and a self-trade cancel belong to the submission just logged, a requested cancel was
   * asked for by the owner, a forced one by a cancel-all of the market the order was accepted in.
   */
  lemma {:induction false} EveryEvent(v: EngineView, ops: seq<Op>, world: World, i: nat) returns (k: nat)
    requires CanRun(v, ops, world) && |v.log| <= i < |Run(v, ops, world).log|
    ensures k < |ops|
    ensures var before := Run(v, ops[..k], world);
            && |before.log| <= i && before.log <= Run(v, ops, world).log
            && Wrote(before, ops[k], world, Run(v, ops, world).log[i], i)
    decreases |ops|
  {
    var next := Step(v, ops[0], world).0;
    FirstStep(v, ops, world);
    StepWritten(v, ops[0], world);
    RunGrows(v, ops, world);
    RunGrows(next, ops[1..], world);
    if i < |next.log| {
      k := 0;
      assert ops[..0] == [];
    } else {
      var j := EveryEvent(next, ops[1..], world, i);
      k := j + 1;
      assert ops[..k][1..] == ops[1..][..j];
    }
  }
}
