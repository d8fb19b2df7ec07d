/** Administrative operations on the engine object: src/ops/admin.rs. */
module Admin {
  import opened Basics
  import opened Domain
  import opened EngineSpec
  import opened Steps
  import opened Runs
  import opened ReplayLoop
  import opened Engines

  /** A changed configuration and one event in the log. */
  method ChangeStatus(engine: Engine, config: MarketConfig, e: Event) returns (seqId: nat)
    requires engine.Sound()
    modifies engine`books, engine`markets, engine.sequencer`nextSeqId, engine.sequencer`log
    ensures engine.Sound() && seqId == old(engine.View()).nextSeqId
    ensures engine.View() == AppendOne(AddMarket(old(engine.View()), config), e, engine.world.wall)
  {
    engine.AddMarketConfig(config);
    ghost var configured := engine.View();
    seqId := engine.sequencer.nextSeqId;
    engine.Append(e);
    AppendParts(configured, e, engine.world.wall, engine.View());
  }

  method PauseMarket(engine: Engine, market: MarketId, triggeredBy: Text) returns (r: Result<nat, AdminError>)
    requires engine.Sound()
    modifies engine`books, engine`markets, engine.sequencer`nextSeqId, engine.sequencer`log
    ensures engine.Sound()
    ensures (engine.View(), r) == Pause(old(engine.View()), market, triggeredBy, engine.world)
  {
    if market !in engine.markets { return Err(UnknownMarket(market)); }
    var config := engine.markets[market];
    match config.status {
      case Paused => return Err(AlreadyInState(market, Paused));
      case Settled => return Err(SettledMarket(market));
      case Active =>
    }
    var seqId := ChangeStatus(engine, config.(status := Paused), MarketPaused(market, triggeredBy));
    return Ok(seqId);
  }

  method ResumeMarket(engine: Engine, market: MarketId, triggeredBy: Text) returns (r: Result<nat, AdminError>)
    requires engine.Sound()
    modifies engine`books, engine`markets, engine.sequencer`nextSeqId, engine.sequencer`log
    ensures engine.Sound()
    ensures (engine.View(), r) == Resume(old(engine.View()), market, triggeredBy, engine.world)
  {
    if market !in engine.markets { return Err(UnknownMarket(market)); }
    var config := engine.markets[market];
    match config.status {
      case Active => return Err(AlreadyInState(market, Active));
      case Settled => return Err(SettledMarket(market));
      case Paused =>
    }
    var seqId := ChangeStatus(engine, config.(status := Active), MarketResumed(market, triggeredBy));
    return Ok(seqId);
  }

  /** Every order the log ever accepted in the market; the log stores each with its open status. */
  method CollectAccepted(log: seq<SequencedEvent>, market: MarketId) returns (targets: seq<(OrderId, OrderHash)>)
    ensures targets == AcceptedIn(log, market)
  {
    targets := [];
    var i := 0;
    while i < |log|
      invariant 0 <= i <= |log|
      invariant targets == AcceptedIn(log[..i], market)
    {
      var e := log[i].event;
      if e.OrderAccepted? && e.order.terms.marketId == market && !e.order.Closed() {
        targets := targets + [(e.order.terms.orderId, e.order.terms.orderHash)];
      }
      assert log[..i + 1][..i] == log[..i];
      i := i + 1;
    }
    assert log[..i] == log;
  }

  /** Records and logs one forced cancel; the book is left as it is. */
  method ForceCancelOne(engine: Engine, id: OrderId, hash: OrderHash)
    modifies engine.state, engine.sequencer`nextSeqId, engine.sequencer`log
    ensures engine.View() == ForceCancel(old(engine.View()), id, hash, engine.world)
    ensures BooksView(engine.books) == old(BooksView(engine.books))
  {
    engine.state.CancelOrder(hash);
    engine.Append(OrderCancelled(id, hash, AdminForce));
    assert BooksView(engine.books) == old(BooksView(engine.books));
  }

  method CancelAllOrders(engine: Engine, market: MarketId) returns (r: Result<nat, AdminError>)
    requires engine.Sound()
    modifies engine.state, engine.sequencer`nextSeqId, engine.sequencer`log
    ensures engine.Sound()
    ensures (engine.View(), r) == CancelAll(old(engine.View()), market, engine.world)
  {
    if market !in engine.markets { return Err(UnknownMarket(market)); }
    ghost var before := engine.View();
    var targets := CollectAccepted(engine.sequencer.log, market);
    var i := 0;
    while i < |targets|
      invariant 0 <= i <= |targets|
      invariant engine.Sound()
      invariant engine.View() == ForceCancels(before, targets[..i], engine.world)
    {
      ForceCancelOne(engine, targets[i].0, targets[i].1);
      assert targets[..i + 1][..i] == targets[..i];
      i := i + 1;
    }
    assert targets[..i] == targets;
    return Ok(|targets|);
  }

  /** Any one call on the engine object is one step of the state machine, and keeps it in agreement with its log. */
  method Perform(engine: Engine, op: Op) returns (outcome: Outcome)
    requires engine.Sound() && Inv(engine.View()) && Fresh(engine.View(), op) && !op.OpRestart?
    modifies engine`books, engine`markets, engine`orderMarketIndex, engine.sequencer, engine.state,
             Objects(engine.books)
    ensures engine.Sound()
    ensures (engine.View(), outcome) == Step(old(engine.View()), op, engine.world)
    ensures Inv(engine.View())
  {
    InvUsable(engine.View());
    StepKeeps(engine.View(), op, engine.world);
    match op {
      case OpSubmit(s, nowMs, freshId) =>
        var r := engine.ProcessOrder(s, nowMs, freshId);
        outcome := Submitted(r);
      case OpCancel(id, trader) =>
        var r := engine.ProcessCancel(id, trader);
        outcome := Cancelling(r);
      case OpPause(m, who) =>
        var r := PauseMarket(engine, m, who);
        outcome := Administered(r);
      case OpResume(m, who) =>
        var r := ResumeMarket(engine, m, who);
        outcome := Administered(r);
      case OpCancelAll(m) =>
        var r := CancelAllOrders(engine, m);
        outcome := Administered(r);
      case OpAddMarket(config) =>
        engine.AddMarketConfig(config);
        outcome := Registered;
    }
  }
}
