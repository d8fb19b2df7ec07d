/** Short runs with one or two orders, to show what the statements about all runs are about. */
module Samples {
  import opened Basics
  import opened Domain
  import opened Matching
  import opened MatchTheory
  import opened Canonical
  import opened Sequencing
  import opened EngineSpec
  import opened Equivalence

  // ---- Orders --------------------------------------------------------------------------------------

  /** The order is valid on its own in this market. */
  ghost predicate Sample(c: MarketConfig, s: SignedOrder, nowMs: nat, world: World) {
    c.id == s.marketId && s.nonce > 0 && Validate(map[c.id := c], s, nowMs, world).None?
  }

  /** The second order can be submitted after the first. */
  predicate Follows(s: SignedOrder, t: SignedOrder) {
    && IdempotencyKey(s.traderId, s.clientOrderId) != IdempotencyKey(t.traderId, t.clientOrderId)
    && (t.traderId == s.traderId ==> t.nonce > s.nonce)
  }

  /** A sell at or below the price of a buy. */
  predicate Opposes(s: SignedOrder, t: SignedOrder) {
    s.side == Buy && t.side == Sell && t.priceTicks <= s.priceTicks
  }

  lemma SampleValid(c: MarketConfig, s: SignedOrder, world: World)
    requires c.status == Active && c.tickSize == 1 && c.lotSize == 1 && s.marketId == c.id && c.id.text != []
    requires s.schemaVersion == 1 && s.clientOrderId != [] && s.traderId.text == HexEncode(s.traderPubkey)
    requires s.priceTicks > 0 && s.sizeLots > 0 && s.expiryTsMs == 0 && s.nonce > 0
    requires world.verify(s.traderPubkey, OrderHash(CanonicalBytes(s)), s.signature) == SignatureOk
    ensures Sample(c, s, 0, world)
  {
    assert |HexEncode(s.traderPubkey)| >= 2;
    assert ValidateFields(s, 0).None?;
    assert ValidateMarket(map[c.id := c], s).None?;
  }

  function SampleKey(digit: byte): (key: Key32)
    ensures key[0] == digit
  {
    seq(32, i => digit)
  }

  function SampleOrder(client: byte, digit: byte, side: Side, nonce: u64): SignedOrder {
    var key := SampleKey(digit);
    SignedOrder(1, [client], MarketId([1]), TraderId(HexEncode(key)), side, 1, 1, Gtc, nonce, 0, 0, 0, key, [])
  }

  lemma TwoTraders(a: byte, b: byte)
    requires a < b < 10
    ensures HexEncode(SampleKey(a)) != HexEncode(SampleKey(b))
  {
    SecondDigit(SampleKey(a));
    SecondDigit(SampleKey(b));
  }

  lemma SecondDigit(b: seq<byte>)
    requires b != []
    ensures |HexEncode(b)| >= 2 && HexEncode(b)[1] == HexDigit(b[0] as nat % 16)
  {
  }

  /** Two buys and a sell of one trader, and a sell of another, at one price. */
  lemma SampleOrders() returns (c: MarketConfig, s: SignedOrder, t: SignedOrder, own: SignedOrder, u: SignedOrder,
                                world: World)
    ensures Sample(c, s, 0, world) && Sample(c, t, 0, world) && Sample(c, own, 0, world) && Sample(c, u, 0, world)
    ensures Follows(s, t) && t.side == s.side && t.traderId == s.traderId
    ensures Follows(s, own) && Opposes(s, own) && own.traderId == s.traderId
    ensures Follows(s, u) && Opposes(s, u) && u.traderId != s.traderId && Follows(t, u) && Opposes(t, u)
  {
    c := MarketConfig(MarketId([1]), 1, 1, Active);
    s, t := SampleOrder(1, 7, Buy, 1), SampleOrder(2, 7, Buy, 2);
    own, u := SampleOrder(3, 7, Sell, 2), SampleOrder(4, 8, Sell, 1);
    world := World((k, hash, signature) => SignatureOk, n => 0);
    SampleValid(c, s, world);
    SampleValid(c, t, world);
    SampleValid(c, own, world);
    SampleValid(c, u, world);
    TwoTraders(7, 8);
  }

  // ---- Runs ----------------------------------------------------------------------------------------

  lemma {:induction false} RunSnoc(v: EngineView, ops: seq<Op>, op: Op, world: World)
    ensures var r := Step(Run(v, ops, world), op, world);
            && Run(v, ops + [op], world) == r.0
            && (FreshIds(v, ops + [op], world) <==> FreshIds(v, ops, world) && Fresh(Run(v, ops, world), op))
            && (NoCrash(v, ops + [op], world) <==> NoCrash(v, ops, world) && !Panics(r.1))
    decreases |ops|
  {
    if ops == [] {
      assert [op][1..] == [];
    } else {
      assert (ops + [op])[1..] == ops[1..] + [op];
      RunSnoc(Step(v, ops[0], world).0, ops[1..], op, world);
    }
  }

  /** Register a market and submit an order. */
  function RestOps(c: MarketConfig, s: SignedOrder, nowMs: nat, id: OrderId): seq<Op> {
    [OpAddMarket(c)] + [OpSubmit(s, nowMs, id)]
  }

  /** ... and cancel it: the market is quiet. */
  function QuietOps(c: MarketConfig, s: SignedOrder, nowMs: nat, id: OrderId): seq<Op> {
    RestOps(c, s, nowMs, id) + [OpCancel(id, s.traderId)]
  }

  /** An order that meets only orders of its own side is logged and rests. */
  lemma SameSideRests(v: EngineView, o: Order, nowMs: nat, world: World)
    requires o.terms.marketId in v.books && Arriving(o)
    requires forall id :: id in v.books[o.terms.marketId] && !v.books[o.terms.marketId][id].Closed() ==>
               v.books[o.terms.marketId][id].terms.side == o.terms.side
    ensures var r := AcceptOrder(v, o, nowMs, world);
            && r.1.Accepted? && |r.0.log| == |v.log| + 1 && r.0.log[|v.log|].event.OrderAccepted?
            && r.0 == Admit(v, o, world.wall).(books := v.books[o.terms.marketId
                                                := v.books[o.terms.marketId][o.terms.orderId := o]])
  {
    assert CrossingIds(v.books[o.terms.marketId], o) == {};
    assert Makers(v.books[o.terms.marketId], o) == [];
  }

  /** One order was ever accepted; the market's book holds it with this status. */
  ghost predicate OneOrder(v: EngineView, c: MarketConfig, s: SignedOrder, id: OrderId, status: OrderStatus) {
    && v.markets == map[c.id := c] && v.log != [] && v.index == map[id := c.id]
    && v.books.Keys == {c.id} && v.books[c.id].Keys == {id}
    && OrderOf(v.books[c.id][id], s, status)
    && v.ledger.nonces == map[s.traderId := s.nonce]
    && var key := IdempotencyKey(s.traderId, s.clientOrderId);
       v.idempotency.Keys == {key} && v.idempotency[key].orderId == id
  }

  predicate OrderOf(o: Order, s: SignedOrder, status: OrderStatus) {
    && o.terms.traderId == s.traderId && o.terms.side == s.side && o.terms.price == s.priceTicks
    && o.filled == 0 && o.status == status
  }

  lemma FirstOrder(c: MarketConfig, s: SignedOrder, nowMs: nat, id: OrderId, world: World)
    requires Sample(c, s, nowMs, world)
    ensures var r := Submit(AddMarket(NEW_ENGINE, c), s, nowMs, id, world);
            && r.1.Accepted? && OneOrder(r.0, c, s, id, Open)
            && |r.0.log| == 1 && r.0.log[0].event.OrderAccepted?
  {
    var v := AddMarket(NEW_ENGINE, c);
    assert v.markets == map[c.id := c] && v.books == map[c.id := map[]];
    SubmitCases(v, s, nowMs, id, world);
    assert ValidateFields(s, nowMs).None?;
    SameSideRests(v, NewOrder(s, id, v.nextSeqId, nowMs), nowMs, world);
  }

  lemma CancelsIt(v: EngineView, c: MarketConfig, s: SignedOrder, id: OrderId, world: World)
    requires OneOrder(v, c, s, id, Open)
    ensures var r := Cancel(v, id, s.traderId, world); !r.1.CancelPanicked? && OneOrder(r.0, c, s, id, Cancelled)
  {
  }

  lemma RestRun(c: MarketConfig, s: SignedOrder, nowMs: nat, id: OrderId, world: World)
    requires Sample(c, s, nowMs, world)
    ensures var ops := RestOps(c, s, nowMs, id);
            var v := Run(NEW_ENGINE, ops, world);
            && FreshIds(NEW_ENGINE, ops, world) && NoForce(ops) && NoCrash(NEW_ENGINE, ops, world)
            && OneOrder(v, c, s, id, Open) && |v.log| == 1 && v.log[0].event.OrderAccepted?
  {
    FirstOrder(c, s, nowMs, id, world);
    AddRun(c, world);
    RunSnoc(NEW_ENGINE, [OpAddMarket(c)], OpSubmit(s, nowMs, id), world);
  }

  lemma AddRun(c: MarketConfig, world: World)
    ensures Run(NEW_ENGINE, [OpAddMarket(c)], world) == AddMarket(NEW_ENGINE, c)
    ensures FreshIds(NEW_ENGINE, [OpAddMarket(c)], world) && NoCrash(NEW_ENGINE, [OpAddMarket(c)], world)
    ensures AddMarket(NEW_ENGINE, c).index == map[]
  {
    assert [OpAddMarket(c)][1..] == [];
  }

  lemma QuietRun(c: MarketConfig, s: SignedOrder, nowMs: nat, id: OrderId, world: World)
    requires Sample(c, s, nowMs, world)
    ensures var ops := QuietOps(c, s, nowMs, id);
            && FreshIds(NEW_ENGINE, ops, world) && NoForce(ops) && NoCrash(NEW_ENGINE, ops, world)
            && OneOrder(Run(NEW_ENGINE, ops, world), c, s, id, Cancelled)
  {
    RestRun(c, s, nowMs, id, world);
    CancelsIt(Run(NEW_ENGINE, RestOps(c, s, nowMs, id), world), c, s, id, world);
    RunSnoc(NEW_ENGINE, RestOps(c, s, nowMs, id), OpCancel(id, s.traderId), world);
  }

  /** The next order passes every check. */
  lemma PassesNext(v: EngineView, c: MarketConfig, s: SignedOrder, t: SignedOrder, nowMs: nat, id: OrderId,
                   status: OrderStatus, world: World)
    requires OneOrder(v, c, s, id, status) && Sample(c, t, nowMs, world) && Follows(s, t)
    ensures Passes(v, t, nowMs, world)
  {
  }

  lemma AcceptsNext(v: EngineView, c: MarketConfig, s: SignedOrder, t: SignedOrder, nowMs: nat, id: OrderId,
                    status: OrderStatus, id2: OrderId, world: World)
    requires OneOrder(v, c, s, id, status) && Sample(c, t, nowMs, world) && Follows(s, t)
    ensures Submit(v, t, nowMs, id2, world).1.Accepted?
  {
    PassesNext(v, c, s, t, nowMs, id, status, world);
    PassesGates(v, t, nowMs, id2, world);
  }

  /** A second order of the same side, or one that finds the first cancelled, rests as well. */
  lemma SecondRests(v: EngineView, c: MarketConfig, s: SignedOrder, t: SignedOrder, nowMs: nat, id: OrderId,
                    status: OrderStatus, id2: OrderId, world: World)
    requires OneOrder(v, c, s, id, status) && (status == Cancelled || t.side == s.side)
    requires Sample(c, t, nowMs, world) && Follows(s, t)
    ensures var o := NewOrder(t, id2, v.nextSeqId, nowMs);
            var r := Submit(v, t, nowMs, id2, world);
            && r.1.Accepted? && |r.0.log| == |v.log| + 1 && r.0.log[|v.log|].event.OrderAccepted?
            && r.0 == Admit(v, o, world.wall).(books := v.books[c.id := v.books[c.id][id2 := o]])
  {
    PassesNext(v, c, s, t, nowMs, id, status, world);
    SubmitCases(v, t, nowMs, id2, world);
    assert ValidateFields(t, nowMs).None?;
    SameSideRests(v, NewOrder(t, id2, v.nextSeqId, nowMs), nowMs, world);
  }

  /** Submitted one after the other, two orders of one side log an acceptance each. */
  lemma BothAccepted(c: MarketConfig, s: SignedOrder, t: SignedOrder, nowMs: nat, id: OrderId, id2: OrderId,
                     world: World)
    requires Sample(c, s, nowMs, world) && Sample(c, t, nowMs, world) && Follows(s, t) && s.side == t.side
    ensures var r1 := Submit(AddMarket(NEW_ENGINE, c), s, nowMs, id, world);
            var r2 := Submit(r1.0, t, nowMs, id2, world);
            && r1.1.Accepted? && r1.0.index.Keys == {id} && |r1.0.log| == 1
            && r2.1.Accepted? && |r2.0.log| == 2
            && r2.0.log[0].event.OrderAccepted? && r2.0.log[1].event.OrderAccepted?
  {
    FirstOrder(c, s, nowMs, id, world);
    SecondRests(Submit(AddMarket(NEW_ENGINE, c), s, nowMs, id, world).0, c, s, t, nowMs, id, Open, id2, world);
  }
}
