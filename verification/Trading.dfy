/** Market status: what pausing, resuming and registering a market change, and what stays so on every run. */
module Trading {
  import opened Basics
  import opened Domain
  import opened EngineSpec
  import opened Steps
  import opened Restart
  import opened Runs
  import opened Equivalence
  import opened Provenance

  // ---- One operation ----------------------------------------------------------------------------------

  /** Same markets, same grids, and the same status everywhere but in one market. */
  predicate OnlyStatus(a: map<MarketId, MarketConfig>, b: map<MarketId, MarketConfig>, m: MarketId,
                       status: MarketStatus)
  {
    && b.Keys == a.Keys && m in b && b[m].status == status
    && (forall x :: x in a && x != m ==> b[x] == a[x])
    && b[m].id == a[m].id && b[m].tickSize == a[m].tickSize && b[m].lotSize == a[m].lotSize
  }

  /** The market has a book, empty if it had none; every other book, ledger and table is as it was. */
  predicate OnlyHoused(v: EngineView, v': EngineView, m: MarketId) {
    && v'.books.Keys == v.books.Keys + {m} && (forall x :: x in v.books ==> v'.books[x] == v.books[x])
    && (m !in v.books ==> v'.books[m] == map[])
    && v'.ledger == v.ledger && v'.index == v.index && v'.idempotency == v.idempotency
  }

  /** One event more, with the next number, which is the answer. */
  ghost predicate OneEvent(v: EngineView, v': EngineView, e: Event, n: nat, world: World) {
    n == |v.log| + 1 && v'.log == v.log + [SequencedEvent(n, world.wall(n), e)]
  }

  /** A registration sets this configuration, leaves every other, and logs nothing. */
  lemma RegisterExactly(v: EngineView, config: MarketConfig)
    ensures var v' := AddMarket(v, config);
            && v'.markets.Keys == v.markets.Keys + {config.id} && v'.markets[config.id] == config
            && (forall x :: x in v.markets && x != config.id ==> v'.markets[x] == v.markets[x])
            && OnlyHoused(v, v', config.id) && v'.log == v.log
  {
  }

  lemma ChangeExactly(v: EngineView, m: MarketId, status: MarketStatus, e: Event, world: World)
    requires Inv(v) && m in v.markets
    ensures var v' := AppendOne(AddMarket(v, v.markets[m].(status := status)), e, world.wall);
            && OnlyStatus(v.markets, v'.markets, m, status) && OnlyHoused(v, v', m)
            && OneEvent(v, v', e, v.nextSeqId, world)
  {
    assert v.markets[m].id == m;
    RegisterExactly(v, v.markets[m].(status := status));
  }

  /** A pause succeeds exactly on an active market, and then the market is paused and nothing else changes. */
  lemma PauseExactly(v: EngineView, m: MarketId, who: Text, world: World)
    requires Inv(v)
    ensures var r := Pause(v, m, who, world);
            match r.1
            case Ok(n) =>
              && m in v.markets && v.markets[m].status == Active
              && OnlyStatus(v.markets, r.0.markets, m, Paused) && OnlyHoused(v, r.0, m)
              && OneEvent(v, r.0, MarketPaused(m, who), n, world)
            case Err(UnknownMarket(x)) => r.0 == v && x == m && m !in v.markets
            case Err(AlreadyInState(x, status)) =>
              r.0 == v && x == m && m in v.markets && v.markets[m].status == status == Paused
            case Err(SettledMarket(x)) => r.0 == v && x == m && m in v.markets && v.markets[m].status == Settled
  {
    if m in v.markets { ChangeExactly(v, m, Paused, MarketPaused(m, who), world); }
  }

  /** A resume succeeds exactly on a paused market, and then the market is active and nothing else changes. */
  lemma ResumeExactly(v: EngineView, m: MarketId, who: Text, world: World)
    requires Inv(v)
    ensures var r := Resume(v, m, who, world);
            match r.1
            case Ok(n) =>
              && m in v.markets && v.markets[m].status == Paused
              && OnlyStatus(v.markets, r.0.markets, m, Active) && OnlyHoused(v, r.0, m)
              && OneEvent(v, r.0, MarketResumed(m, who), n, world)
            case Err(UnknownMarket(x)) => r.0 == v && x == m && m !in v.markets
            case Err(AlreadyInState(x, status)) =>
              r.0 == v && x == m && m in v.markets && v.markets[m].status == status == Active
            case Err(SettledMarket(x)) => r.0 == v && x == m && m in v.markets && v.markets[m].status == Settled
  {
    if m in v.markets { ChangeExactly(v, m, Active, MarketResumed(m, who), world); }
  }

  // ---- Runs ---------------------------------------------------------------------------------------------

  /** The operation can change the status of the market. */
  predicate Touches(op: Op, m: MarketId) {
    || (op.OpPause? && op.marketId == m) || (op.OpResume? && op.marketId == m)
    || (op.OpAddMarket? && op.config.id == m)
  }

  /** ... and make it active. */
  predicate Activates(op: Op, m: MarketId) {
    (op.OpResume? && op.marketId == m) || (op.OpAddMarket? && op.config.id == m)
  }

  /** ... and make an active one inactive. */
  predicate Deactivates(op: Op, m: MarketId) {
    (op.OpPause? && op.marketId == m) || (op.OpAddMarket? && op.config.id == m)
  }

  predicate Inactive(v: EngineView, m: MarketId) {
    m in v.markets && v.markets[m].status != Active
  }

  /** Nothing but a pause, a resume or a registration of the market changes its configuration. */
  lemma StepKeepsConfig(v: EngineView, op: Op, world: World, m: MarketId)
    requires Inv(v) && !Touches(op, m)
    ensures SameConfig(v, Step(v, op, world).0, m)
  {
    if op.OpPause? {
      PauseExactly(v, op.marketId, op.triggeredBy, world);
    } else if op.OpResume? {
      ResumeExactly(v, op.marketId, op.triggeredBy, world);
    } else if op.OpAddMarket? {
      RegisterExactly(v, op.config);
    } else {
      RequestKeepsMarkets(v, op, world);
    }
  }

  predicate SameConfig(v: EngineView, v': EngineView, m: MarketId) {
    (m in v'.markets <==> m in v.markets) && (m in v.markets ==> v'.markets[m] == v.markets[m])
  }

  lemma RequestKeepsMarkets(v: EngineView, op: Op, world: World)
    requires Inv(v) && (op.OpSubmit? || op.OpCancel? || op.OpCancelAll? || op.OpRestart?)
    ensures Step(v, op, world).0.markets == v.markets
  {
    if op.OpRestart? {
      RestartedLog(v);
    } else {
      RequestKeys(v, op, world);
    }
  }

  lemma StepStaysInactive(v: EngineView, op: Op, world: World, m: MarketId)
    requires Inv(v) && Inactive(v, m) && !Activates(op, m)
    ensures var v' := Step(v, op, world).0; m in v'.markets && v'.markets[m] == v.markets[m]
  {
    if op.OpPause? && op.marketId == m {
      PauseExactly(v, m, op.triggeredBy, world);
    } else {
      StepKeepsConfig(v, op, world, m);
    }
  }

  lemma StepStaysActive(v: EngineView, op: Op, world: World, m: MarketId)
    requires Inv(v) && m in v.markets && v.markets[m].status == Active && !Deactivates(op, m)
    ensures var v' := Step(v, op, world).0; m in v'.markets && v'.markets[m] == v.markets[m]
  {
    if op.OpResume? && op.marketId == m {
      ResumeExactly(v, m, op.triggeredBy, world);
    } else {
      StepKeepsConfig(v, op, world, m);
    }
  }

  /** The log has no acceptance in the market after its first `n` events. */
  ghost predicate NoneAfter(log: seq<SequencedEvent>, n: nat, m: MarketId) {
    forall i :: n <= i < |log| && log[i].event.OrderAccepted? ==> log[i].event.order.terms.marketId != m
  }

  /** No order of an inactive market is accepted. */
  lemma StepAcceptsNone(v: EngineView, op: Op, world: World, m: MarketId)
    requires Inv(v) && Inactive(v, m)
    ensures v.log <= Step(v, op, world).0.log && NoneAfter(Step(v, op, world).0.log, |v.log|, m)
  {
    StepWritten(v, op, world);
    var log := Step(v, op, world).0.log;
    forall i | |v.log| <= i < |log| && log[i].event.OrderAccepted? ensures log[i].event.order.terms.marketId != m {
      assert Wrote(v, op, world, log[i], i);
    }
  }

  /** While nobody resumes or registers it again, an inactive market keeps its configuration and accepts nothing. */
  lemma {:induction false} InactiveRun(v: EngineView, ops: seq<Op>, world: World, m: MarketId)
    requires CanRun(v, ops, world) && Inactive(v, m) && forall op :: op in ops ==> !Activates(op, m)
    ensures var v' := Run(v, ops, world);
            && m in v'.markets && v'.markets[m] == v.markets[m]
            && v.log <= v'.log && NoneAfter(v'.log, |v.log|, m)
    decreases |ops|
  {
    if ops == [] {
    } else {
      var next := Step(v, ops[0], world).0;
      assert ops[0] in ops && forall op :: op in ops[1..] ==> op in ops;
      FirstStep(v, ops, world);
      StepStaysInactive(v, ops[0], world, m);
      StepAcceptsNone(v, ops[0], world, m);
      InactiveRun(next, ops[1..], world, m);
      NoneJoins(next.log, Run(next, ops[1..], world).log, |v.log|, m);
    }
  }

  lemma NoneJoins(a: seq<SequencedEvent>, b: seq<SequencedEvent>, n: nat, m: MarketId)
    requires a <= b && NoneAfter(a, n, m) && NoneAfter(b, |a|, m)
    ensures NoneAfter(b, n, m)
  {
    forall i | n <= i < |b| && b[i].event.OrderAccepted? ensures b[i].event.order.terms.marketId != m {
      if i < |a| { assert a[i] == b[i]; }
    }
  }

  /**
   * After a pause the market accepts no order, on every run and through restarts and forced cancels, until it is
   * resumed or registered again.
   */
  lemma PauseStops(v: EngineView, m: MarketId, who: Text, ops: seq<Op>, world: World)
    requires CanRun(v, [OpPause(m, who)] + ops, world) && Pause(v, m, who, world).1.Ok?
    requires forall op :: op in ops ==> !Activates(op, m)
    ensures var v' := Run(v, [OpPause(m, who)] + ops, world);
            && m in v'.markets && v'.markets[m].status == Paused
            && v.log <= v'.log && NoneAfter(v'.log, |v.log|, m)
  {
    var all := [OpPause(m, who)] + ops;
    var paused := Pause(v, m, who, world).0;
    FirstStep(v, all, world);
    assert all[1..] == ops;
    PauseExactly(v, m, who, world);
    InactiveRun(paused, ops, world, m);
    NoneJoins(paused.log, Run(paused, ops, world).log, |v.log|, m);
  }

  lemma {:induction false} ActiveRun(v: EngineView, ops: seq<Op>, world: World, m: MarketId)
    requires CanRun(v, ops, world) && m in v.markets && v.markets[m].status == Active
    requires forall op :: op in ops ==> !Deactivates(op, m)
    ensures var v' := Run(v, ops, world); m in v'.markets && v'.markets[m] == v.markets[m]
    decreases |ops|
  {
    if ops == [] {
    } else {
      assert ops[0] in ops && forall op :: op in ops[1..] ==> op in ops;
      FirstStep(v, ops, world);
      StepStaysActive(v, ops[0], world, m);
      ActiveRun(Step(v, ops[0], world).0, ops[1..], world, m);
    }
  }

  /** What intake asks of an order besides its market's status. */
  ghost predicate OtherwiseAdmitted(v: EngineView, s: SignedOrder, nowMs: nat, world: World) {
    && s.marketId in v.markets
    && var markets := v.markets[s.marketId := v.markets[s.marketId].(status := Active)];
       Admits(v.(markets := markets), s, nowMs, world)
  }

  /**
   * After a resume the market is open, on every run and through restarts and forced cancels, until it is paused
   * or registered again: an order that meets the other conditions is logged.
   */
  lemma ResumeOpens(v: EngineView, m: MarketId, who: Text, ops: seq<Op>, world: World, s: SignedOrder, nowMs: nat,
                    freshId: OrderId)
    requires CanRun(v, [OpResume(m, who)] + ops, world) && Resume(v, m, who, world).1.Ok?
    requires forall op :: op in ops ==> !Deactivates(op, m)
    ensures var v' := Run(v, [OpResume(m, who)] + ops, world);
            && m in v'.markets && v'.markets[m].status == Active
            && (s.marketId == m && OtherwiseAdmitted(v', s, nowMs, world) ==>
                  var log := Submit(v', s, nowMs, freshId, world).0.log;
                  && v'.log < log && log[|v'.log|].event.OrderAccepted?
                  && log[|v'.log|].event.order.terms.orderId == freshId)
  {
    var all := [OpResume(m, who)] + ops;
    var resumed := Resume(v, m, who, world).0;
    FirstStep(v, all, world);
    assert all[1..] == ops;
    ResumeExactly(v, m, who, world);
    ActiveRun(resumed, ops, world, m);
    RunKeeps(resumed, ops, world);
    OpenAccepts(Run(resumed, ops, world), s, nowMs, freshId, world);
  }

  lemma OpenAccepts(v: EngineView, s: SignedOrder, nowMs: nat, freshId: OrderId, world: World)
    requires Inv(v)
    ensures s.marketId in v.markets && v.markets[s.marketId].status == Active
            && OtherwiseAdmitted(v, s, nowMs, world) ==>
              var log := Submit(v, s, nowMs, freshId, world).0.log;
              && v.log < log && log[|v.log|].event.OrderAccepted?
              && log[|v.log|].event.order.terms.orderId == freshId
  {
    if s.marketId in v.markets && v.markets[s.marketId].status == Active && OtherwiseAdmitted(v, s, nowMs, world) {
      assert v.markets[s.marketId := v.markets[s.marketId].(status := Active)] == v.markets;
      LoggedExactly(v, s, nowMs, freshId, world);
    }
  }
}
