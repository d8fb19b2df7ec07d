/** Restart equivalence over whole runs, and what exactly a restart costs. */
module Equivalence {
  import opened Domain
  import opened Books
  import opened Matching
  import opened Sequencing
  import opened Replaying
  import opened EngineSpec
  import opened Live
  import opened Steps
  import opened Restart
  import opened Runs
  import opened Grammar
  import opened Twins

  // ---- A restored engine is a shadow -------------------------------------------------------------

  lemma ReplayedShadow(v: EngineView, m: MarketId)
    requires Inv(v) && BooksReplay(v)
    ensures ShadowBook(BookOf(v, m), OpenOrders(WorkingOf(v).orders, m))
  {
    LiveBookIsReplayed(v, m);
  }

  /** The engine as the program restarts it shadows the one that never stopped. */
  lemma RestartedShadows(v: EngineView)
    requires Inv(v) && BooksReplay(v) && (v.log == [] ==> Housed(v))
    ensures Shadows(v, Restarted(v))
  {
    RestartedIsTwin(v);
    var r := Restarted(v);
    if v.log != [] {
      var w := WorkingOf(v);
      RestartedFields(v);
      forall m ensures ShadowBook(BookOf(v, m), BookOf(r, m)) {
        ReplayedShadow(v, m);
        ReplayedBookOf(w.orders, m);
      }
      forall m | m in r.books ensures m in v.books {
        assert RestartedHas(r, w, m);
      }
    } else {
      forall m ensures ShadowBook(BookOf(v, m), BookOf(r, m)) {
        assert TwinBook(BookOf(v, m), BookOf(r, m));
      }
    }
  }

  /** Some open order of the log gives the market its book. */
  ghost predicate RestartedHas(r: EngineView, w: Working, m: MarketId) {
    exists id :: id in w.orders && !w.orders[id].Closed() && w.orders[id].terms.marketId == m
  }

  // ---- What is lost ------------------------------------------------------------------------------

  /** The markets whose book a restart drops: those where no order rests. */
  ghost function Quiet(v: EngineView): set<MarketId> {
    if v.log == [] then {} else set m | m in v.books && OpenIds(v.books[m]) == {}
  }

  /** The orders a restart drops: those that are closed in a book. */
  ghost function ClosedIn(v: EngineView): set<OrderId> {
    set id | id in v.index && FindOrder(v, id).Some? && FindOrder(v, id).value.Closed()
  }

  ghost predicate Lacks(v: EngineView, r: EngineView, quiet: set<MarketId>) {
    forall m :: m in quiet <==> m in v.books && m !in r.books
  }

  ghost predicate Lost(v: EngineView, r: EngineView, gone: set<OrderId>) {
    forall id :: id in gone <==> Gone(v, r, id)
  }

  /** The program's own restart gives a market a book exactly when it has an order resting in it. */
  lemma RestartedHouses(v: EngineView, m: MarketId)
    requires Inv(v) && BooksReplay(v) && v.log != []
    ensures m in Restarted(v).books <==> m in v.books && OpenIds(v.books[m]) != {}
  {
    var w, r := WorkingOf(v), Restarted(v);
    RestartedFields(v);
    LiveBookIsReplayed(v, m);
    if m in r.books {
      var id :| id in w.orders && !w.orders[id].Closed() && w.orders[id].terms.marketId == m;
      assert id in OpenOrders(w.orders, m);
      assert id in OpenIds(BookOf(v, m));
    }
    if m in v.books && OpenIds(v.books[m]) != {} {
      var id :| id in OpenIds(v.books[m]);
      assert id in OpenOrders(w.orders, m);
    }
  }

  lemma RestartLacks(v: EngineView)
    requires Inv(v) && BooksReplay(v) && (v.log == [] ==> Housed(v))
    requires v.log == [] ==> forall m :: m in v.books ==> m in v.markets
    ensures Lacks(v, Restarted(v), Quiet(v))
  {
    if v.log != [] {
      forall m ensures m in Quiet(v) <==> m in v.books && m !in Restarted(v).books {
        RestartedHouses(v, m);
      }
    }
  }

  /** No closed order survives a restart. */
  lemma RestartedOpen(v: EngineView, id: OrderId)
    requires Inv(v)
    ensures FindOrder(Restarted(v), id).Some? ==> !FindOrder(Restarted(v), id).value.Closed()
  {
    if v.log != [] { RestartedFields(v); }
  }

  lemma RestartLoses(v: EngineView)
    requires Inv(v) && BooksReplay(v) && (v.log == [] ==> Housed(v))
    ensures Lost(v, Restarted(v), ClosedIn(v))
  {
    RestartedShadows(v);
    forall id ensures id in ClosedIn(v) <==> Gone(v, Restarted(v), id) {
      OneLost(v, Restarted(v), id);
    }
  }

  lemma OneLost(v: EngineView, r: EngineView, id: OrderId)
    requires Inv(v) && Shadows(v, r) && r == Restarted(v)
    ensures Gone(v, r, id) <==> FindOrder(v, id).Some? && FindOrder(v, id).value.Closed()
  {
    ShadowFind(v, r, id);
    RestartedOpen(v, id);
  }

  /** Before anything is logged, exactly the registered markets have books. */
  ghost predicate Unlogged(v: EngineView) {
    v.log == [] ==> forall m :: m in v.books <==> m in v.markets
  }

  // ---- What a request finds, said of the running engine alone -------------------------------------

  /** The request reaches the book of a quiet market. */
  ghost predicate Crashes(v: EngineView, quiet: set<MarketId>, op: Op, world: World) {
    match op
    case OpSubmit(s, nowMs, _) => Passes(v, s, nowMs, world) && s.marketId in quiet
    case OpCancel(id, _) => id in v.index && v.index[id] in quiet
    case _ => false
  }

  /** The request is answered from an order that was closed before the restart. */
  ghost predicate Misreads(v: EngineView, gone: set<OrderId>, op: Op, world: World) {
    match op
    case OpSubmit(s, nowMs, _) =>
      var key := IdempotencyKey(s.traderId, s.clientOrderId);
      && Validate(v.markets, s, nowMs, world).None? && key in v.idempotency
      && var id := v.idempotency[key].orderId;
      id in gone && FindOrder(v, id).Some? && FindOrder(v, id).value.status != Filled
    case OpCancel(id, _) => id in gone
    case _ => false
  }

  lemma SaidOfOne(v: EngineView, r: EngineView, quiet: set<MarketId>, gone: set<OrderId>, op: Op, world: World)
    requires Lacks(v, r, quiet) && Lost(v, r, gone)
    ensures Crashes(v, quiet, op, world) <==> Strikes(v, r, op, world)
    ensures Misreads(v, gone, op, world) <==> ReadsGone(v, r, op, world)
  {
  }

  /** Registering, pausing or resuming a market gives it a book again. */
  function NextQuiet(v: EngineView, quiet: set<MarketId>, op: Op, world: World): set<MarketId> {
    match op
    case OpAddMarket(config) => quiet - {config.id}
    case OpPause(m, who) => if Pause(v, m, who, world).1.Ok? then quiet - {m} else quiet
    case OpResume(m, who) => if Resume(v, m, who, world).1.Ok? then quiet - {m} else quiet
    case OpRestart => {}
    case _ => quiet
  }

  function NextGone(gone: set<OrderId>, op: Op): set<OrderId> {
    if op.OpRestart? then {} else gone
  }

  // ---- Books come back, orders do not --------------------------------------------------------------

  lemma AddMarketLacks(v: EngineView, r: EngineView, quiet: set<MarketId>, config: MarketConfig)
    requires Lacks(v, r, quiet) && forall m :: m in r.books ==> m in v.books
    ensures Lacks(AddMarket(v, config), AddMarket(r, config), quiet - {config.id})
  {
  }

  lemma SameKeysLack(v: EngineView, r: EngineView, v': EngineView, r': EngineView, quiet: set<MarketId>)
    requires Lacks(v, r, quiet)
    requires forall m :: m in v'.books <==> m in v.books
    requires forall m :: m in r'.books <==> m in r.books
    ensures Lacks(v', r', quiet)
  {
  }

  lemma SubmitKeys(v: EngineView, s: SignedOrder, nowMs: nat, freshId: OrderId, world: World, m: MarketId)
    ensures m in Submit(v, s, nowMs, freshId, world).0.books <==> m in v.books
  {
    SubmitCases(v, s, nowMs, freshId, world);
  }

  lemma SubmitMarkets(v: EngineView, s: SignedOrder, nowMs: nat, freshId: OrderId, world: World)
    ensures Submit(v, s, nowMs, freshId, world).0.markets == v.markets
  {
    SubmitCases(v, s, nowMs, freshId, world);
  }

  lemma RequestKeys(v: EngineView, op: Op, world: World)
    requires op.OpSubmit? || op.OpCancel? || op.OpCancelAll?
    ensures forall m :: m in Step(v, op, world).0.books <==> m in v.books
    ensures Step(v, op, world).0.markets == v.markets
  {
    if op.OpSubmit? { SubmitMarkets(v, op.signed, op.nowMs, op.freshId, world); }
    if op.OpSubmit? {
      forall m ensures m in Step(v, op, world).0.books <==> m in v.books {
        SubmitKeys(v, op.signed, op.nowMs, op.freshId, world, m);
      }
    } else if op.OpCancelAll? {
      ForceCancelsBooks(v, AcceptedIn(v.log, op.marketId), world);
    }
  }

  lemma ConfigLacks(v: EngineView, r: EngineView, quiet: set<MarketId>, op: Op, world: World)
    requires Shadows(v, r) && Lacks(v, r, quiet) && forall m :: m in v.markets ==> v.markets[m].id == m
    requires op.OpPause? || op.OpResume? || op.OpAddMarket?
    ensures Lacks(Step(v, op, world).0, Step(r, op, world).0, NextQuiet(v, quiet, op, world))
  {
    match op
    case OpPause(m, who) =>
      if m in v.markets { AddMarketLacks(v, r, quiet, v.markets[m].(status := Paused)); }
    case OpResume(m, who) =>
      if m in v.markets { AddMarketLacks(v, r, quiet, v.markets[m].(status := Active)); }
    case OpAddMarket(config) => AddMarketLacks(v, r, quiet, config);
  }

  /** The books of an engine and of its shadow after the same operation. */
  lemma StepLacks(v: EngineView, r: EngineView, quiet: set<MarketId>, op: Op, world: World)
    requires Shadows(v, r) && Lacks(v, r, quiet) && forall m :: m in v.markets ==> v.markets[m].id == m
    ensures Lacks(Step(v, op, world).0, Step(r, op, world).0, NextQuiet(v, quiet, op, world))
  {
    if op.OpSubmit? || op.OpCancel? || op.OpCancelAll? {
      RequestKeys(v, op, world);
      RequestKeys(r, op, world);
      SameKeysLack(v, r, Step(v, op, world).0, Step(r, op, world).0, quiet);
    } else if op.OpRestart? {
      SameRestart(v, r, world);
    } else {
      ConfigLacks(v, r, quiet, op, world);
    }
  }

  /** No order leaves a book except by a restart. */
  ghost predicate KeepsOrders(a: map<MarketId, Orders>, b: map<MarketId, Orders>) {
    forall m, id :: m in a && id in a[m] ==> m in b && id in b[m]
  }

  lemma SubmitKeepsOrders(v: EngineView, s: SignedOrder, nowMs: nat, freshId: OrderId, world: World)
    ensures KeepsOrders(v.books, Submit(v, s, nowMs, freshId, world).0.books)
  {
    SubmitCases(v, s, nowMs, freshId, world);
    if Passes(v, s, nowMs, world) && s.marketId in v.books {
      var o := NewOrder(s, freshId, v.nextSeqId, nowMs);
      var book := v.books[s.marketId];
      WalkFrame(book, o, Makers(book, o), o.terms.createdSequence, nowMs);
    }
  }

  lemma StepKeepsOrders(v: EngineView, op: Op, world: World)
    requires !op.OpRestart?
    ensures KeepsOrders(v.books, Step(v, op, world).0.books)
  {
    if op.OpSubmit? {
      SubmitKeepsOrders(v, op.signed, op.nowMs, op.freshId, world);
    } else if op.OpCancelAll? {
      ForceCancelsBooks(v, AcceptedIn(v.log, op.marketId), world);
    }
  }

  /** A known order is found after an operation exactly when it was found before. */
  lemma StepFinds(v: EngineView, op: Op, world: World, id: OrderId)
    requires Fresh(v, op) && !op.OpRestart? && id in v.index
    ensures FindOrder(Step(v, op, world).0, id).Some? <==> FindOrder(v, id).Some?
  {
    StepAdds(v, op, world, id);
    StepKeepsOrders(v, op, world);
  }

  lemma SubmitFound(v: EngineView, s: SignedOrder, nowMs: nat, freshId: OrderId, world: World, id: OrderId)
    requires Inv(v) && freshId !in v.index && id !in v.index
    ensures var found := FindOrder(Submit(v, s, nowMs, freshId, world).0, id); found.Some? ==> !found.value.Closed()
  {
    SubmitCases(v, s, nowMs, freshId, world);
    if Passes(v, s, nowMs, world) {
      FreshInNoBook(v, freshId);
      var o := NewOrder(s, freshId, v.nextSeqId, nowMs);
      AcceptAdds(v, o, nowMs, world);
      RestingIsOpen(v, o, nowMs, world);
    }
  }

  lemma OthersFindNone(v: EngineView, op: Op, world: World, id: OrderId)
    requires !op.OpSubmit? && !op.OpRestart? && id !in v.index
    ensures FindOrder(Step(v, op, world).0, id).None?
  {
    if op.OpCancel? {
      CancelAdds(v, op.orderId, op.traderId, world);
    } else {
      AdminAdds(v, op, world);
    }
  }

  /** An order just submitted is found only while it is open, and no other unknown order is found. */
  lemma FoundIsOpen(v: EngineView, op: Op, world: World, id: OrderId)
    requires Inv(v) && Fresh(v, op) && !op.OpRestart? && id !in v.index
    ensures var found := FindOrder(Step(v, op, world).0, id); found.Some? ==> !found.value.Closed()
  {
    if op.OpSubmit? {
      SubmitFound(v, op.signed, op.nowMs, op.freshId, world, id);
    } else {
      OthersFindNone(v, op, world, id);
    }
  }

  lemma RestingIsOpen(v: EngineView, o: Order, nowMs: nat, world: World)
    requires forall m :: m in v.books ==> o.terms.orderId !in v.books[m]
    ensures var found := FindOrder(AcceptOrder(v, o, nowMs, world).0, o.terms.orderId);
            found.Some? ==> !found.value.Closed()
  {
    var market := o.terms.marketId;
    if market in v.books {
      WalkFrame(v.books[market], o, Makers(v.books[market], o), o.terms.createdSequence, nowMs);
    }
  }

  /** The orders lost by a restart stay the same until the next one. */
  lemma StepLost(v: EngineView, r: EngineView, gone: set<OrderId>, op: Op, world: World)
    requires Shadows(v, r) && Lost(v, r, gone) && Inv(v) && Fresh(v, op) && !op.OpRestart?
    requires Shadows(Step(v, op, world).0, Step(r, op, world).0)
    ensures Lost(Step(v, op, world).0, Step(r, op, world).0, gone)
  {
    forall id ensures id in gone <==> Gone(Step(v, op, world).0, Step(r, op, world).0, id) {
      if id in v.index {
        StepFinds(v, op, world, id);
        StepFinds(r, op, world, id);
      } else {
        FoundIsOpen(v, op, world, id);
        ShadowFind(Step(v, op, world).0, Step(r, op, world).0, id);
      }
    }
  }

  // ---- Whole runs --------------------------------------------------------------------------------

  /**
   * How a restored engine answers a run, told from the running engine: alike, except that a duplicate or a
   * cancel of an order closed before the restart may be answered differently; until, if ever, a request
   * reaches a quiet market and crashes the restored engine alone.
   */
  ghost predicate Predicted(v: EngineView, r: EngineView, quiet: set<MarketId>, gone: set<OrderId>, ops: seq<Op>,
                            world: World)
    decreases |ops|
  {
    ops == [] ||
    (var a, b := Step(v, ops[0], world), Step(r, ops[0], world);
     if Crashes(v, quiet, ops[0], world) then
       Panics(b.1) && !Panics(a.1)
     else
       && (Panics(a.1) <==> Panics(b.1))
       && (a.1 == b.1 <==> !Misreads(v, gone, ops[0], world))
       && Predicted(a.0, b.0, NextQuiet(v, quiet, ops[0], world), NextGone(gone, ops[0]), ops[1..], world))
  }

  /** No request of the run reaches a quiet market. */
  ghost predicate Spared(v: EngineView, quiet: set<MarketId>, ops: seq<Op>, world: World)
    decreases |ops|
  {
    ops == [] ||
    (!Crashes(v, quiet, ops[0], world)
     && Spared(Step(v, ops[0], world).0, NextQuiet(v, quiet, ops[0], world), ops[1..], world))
  }

  /** A restart looks at the markets and the log only. */
  lemma SameRestart(v: EngineView, r: EngineView, world: World)
    requires r.markets == v.markets && r.log == v.log
    ensures Step(v, OpRestart, world) == Step(r, OpRestart, world)
    ensures Lacks(Restarted(v), Restarted(r), {}) && Lost(Restarted(v), Restarted(r), {})
  {
  }

  /** One operation: what is missing in the shadow is known before and after. */
  lemma ShadowSets(v: EngineView, r: EngineView, quiet: set<MarketId>, gone: set<OrderId>, op: Op, world: World)
    requires Shadows(v, r) && Lacks(v, r, quiet) && Lost(v, r, gone) && Inv(v) && Inv(r) && Fresh(v, op)
    requires !Strikes(v, r, op, world)
    ensures var a, b := Step(v, op, world), Step(r, op, world);
            && Shadows(a.0, b.0)
            && Lacks(a.0, b.0, NextQuiet(v, quiet, op, world)) && Lost(a.0, b.0, NextGone(gone, op))
  {
    ShadowStep(v, r, op, world);
    StepLacks(v, r, quiet, op, world);
    if op.OpRestart? {
      SameRestart(v, r, world);
    } else {
      StepLost(v, r, gone, op, world);
    }
  }

  /** The shadow keeps its own invariant. */
  lemma ShadowKeeps(v: EngineView, r: EngineView, op: Op, world: World)
    requires Shadows(v, r) && Inv(v) && Inv(r) && Fresh(v, op) && Inv(Step(v, op, world).0)
    ensures Inv(Step(r, op, world).0)
  {
    StepKeeps(r, op, world);
  }

  lemma {:induction false} ShadowRun(v: EngineView, r: EngineView, quiet: set<MarketId>, gone: set<OrderId>,
                                     ops: seq<Op>, world: World)
    requires Shadows(v, r) && Lacks(v, r, quiet) && Lost(v, r, gone) && CanRun(v, ops, world) && Inv(r)
    ensures Predicted(v, r, quiet, gone, ops, world)
    ensures Spared(v, quiet, ops, world) ==> Shadows(Run(v, ops, world), Run(r, ops, world))
    decreases |ops|
  {
    if ops == [] {
    } else {
      FirstStep(v, ops, world);
      SaidOfOne(v, r, quiet, gone, ops[0], world);
      ShadowStep(v, r, ops[0], world);
      if !Strikes(v, r, ops[0], world) {
        ShadowSets(v, r, quiet, gone, ops[0], world);
        ShadowKeeps(v, r, ops[0], world);
        ShadowRun(Step(v, ops[0], world).0, Step(r, ops[0], world).0, NextQuiet(v, quiet, ops[0], world),
                  NextGone(gone, ops[0]), ops[1..], world);
      }
    }
  }

  // ---- The restart theorems ------------------------------------------------------------------------

  lemma SubmitLogs(v: EngineView, s: SignedOrder, nowMs: nat, freshId: OrderId, world: World)
    ensures var v' := Submit(v, s, nowMs, freshId, world).0; v' == v || v'.log != []
  {
    SubmitCases(v, s, nowMs, freshId, world);
  }

  lemma RestartUnlogged(v: EngineView)
    requires Inv(v)
    ensures Unlogged(Restarted(v))
  {
    RestartedLog(v);
  }

  lemma UnloggedStep(v: EngineView, op: Op, world: World)
    requires Inv(v) && Unlogged(v)
    ensures Unlogged(Step(v, op, world).0)
  {
    if op.OpRestart? {
      RestartUnlogged(v);
    } else if op.OpSubmit? {
      SubmitLogs(v, op.signed, op.nowMs, op.freshId, world);
    } else {
      OtherUnlogged(v, op, world);
    }
  }

  lemma OtherUnlogged(v: EngineView, op: Op, world: World)
    requires Unlogged(v) && !op.OpSubmit? && !op.OpRestart?
    ensures Unlogged(Step(v, op, world).0)
  {
    if op.OpCancelAll? && v.log != [] { ForceLogged(v, AcceptedIn(v.log, op.marketId), world); }
  }

  lemma {:induction false} ForceLogged(v: EngineView, targets: seq<(OrderId, OrderHash)>, world: World)
    requires v.log != []
    ensures ForceCancels(v, targets, world).log != []
    decreases |targets|
  {
    if targets == [] {
    } else {
      ForceLogged(v, targets[..|targets| - 1], world);
    }
  }

  lemma {:induction false} UnloggedRun(v: EngineView, ops: seq<Op>, world: World)
    requires CanRun(v, ops, world) && Unlogged(v)
    ensures Unlogged(Run(v, ops, world))
    decreases |ops|
  {
    if ops == [] {
    } else {
      FirstStep(v, ops, world);
      UnloggedStep(v, ops[0], world);
      UnloggedRun(Step(v, ops[0], world).0, ops[1..], world);
    }
  }

  /** The state a restart starts from: what any run without forced cancels and crashes leaves. */
  lemma RunRestartable(ops: seq<Op>, world: World)
    requires FreshIds(NEW_ENGINE, ops, world) && NoForce(ops) && NoCrash(NEW_ENGINE, ops, world)
    ensures var v := Run(NEW_ENGINE, ops, world);
            Inv(v) && BooksReplay(v) && Unlogged(v) && (v.log == [] ==> Housed(v))
  {
    NewCanRun(ops, world);
    NewEngineInv();
    RunKeeps(NEW_ENGINE, ops, world);
    UnloggedRun(NEW_ENGINE, ops, world);
  }

  /** Restarting an engine whose books are those of the log, under any later operations. */
  lemma RestartFrom(v: EngineView, after: seq<Op>, world: World)
    requires Inv(v) && BooksReplay(v) && Unlogged(v) && (v.log == [] ==> Housed(v)) && FreshIds(v, after, world)
    ensures Shadows(v, Restarted(v))
    ensures Predicted(v, Restarted(v), Quiet(v), ClosedIn(v), after, world)
    ensures Spared(v, Quiet(v), after, world) ==> Shadows(Run(v, after, world), Run(Restarted(v), after, world))
  {
    RestartKeeps(v);
    SyncedAgrees(v);
    RestartedShadows(v);
    RestartLacks(v);
    RestartLoses(v);
    ShadowRun(v, Restarted(v), Quiet(v), ClosedIn(v), after, world);
  }

  /**
   * Restart equivalence, for the program as it restarts itself: after any run without forced cancels and
   * crashes, and under any later operations, the restored engine reaches the same log, ledgers, fills and
   * open orders and answers as predicted from the engine that never stopped, as long as no request reaches a
   * market that was quiet at the restart and has not been registered, paused or resumed since; the first such
   * request crashes the restored engine alone.
   */
  lemma RestartEquivalence(before: seq<Op>, after: seq<Op>, world: World)
    requires FreshIds(NEW_ENGINE, before, world) && NoForce(before) && NoCrash(NEW_ENGINE, before, world)
    requires FreshIds(Run(NEW_ENGINE, before, world), after, world)
    ensures var v := Run(NEW_ENGINE, before, world);
            && Shadows(v, Restarted(v))
            && Predicted(v, Restarted(v), Quiet(v), ClosedIn(v), after, world)
            && (Spared(v, Quiet(v), after, world) ==> Shadows(Run(v, after, world), Run(Restarted(v), after, world)))
  {
    RunRestartable(before, world);
    RestartFrom(Run(NEW_ENGINE, before, world), after, world);
  }

  // ---- With the markets registered again -----------------------------------------------------------

  /** `add_market` for each configured market again. */
  function Rehouse(v: EngineView, configs: seq<MarketConfig>): EngineView
    decreases |configs|
  {
    if configs == [] then v else Rehouse(AddMarket(v, configs[0]), configs[1..])
  }

  ghost predicate Configures(configs: seq<MarketConfig>, markets: map<MarketId, MarketConfig>) {
    && (forall c :: c in configs ==> c.id in markets && markets[c.id] == c)
    && (forall m :: m in markets ==> markets[m] in configs)
  }

  lemma RehouseOne(v: EngineView, r: EngineView, gone: set<OrderId>, c: MarketConfig)
    requires Shadows(v, r) && Lost(v, r, gone) && c.id in r.markets && r.markets[c.id] == c && c.id in v.books
    ensures var r' := AddMarket(r, c);
            && Shadows(v, r') && Lost(v, r', gone) && r'.markets == r.markets && c.id in r'.books
            && (forall m :: m in r.books ==> m in r'.books)
  {
    var r' := AddMarket(r, c);
    assert r.markets[c.id := c] == r.markets;
    forall m ensures ShadowBook(BookOf(v, m), BookOf(r', m)) {
      assert ShadowBook(BookOf(v, m), BookOf(r, m)) && BookOf(r', m) == BookOf(r, m);
    }
    assert forall id :: FindOrder(r', id) == FindOrder(r, id);
    assert forall id :: Gone(v, r', id) <==> Gone(v, r, id);
  }

  lemma {:induction false} RehouseShadows(v: EngineView, r: EngineView, gone: set<OrderId>, configs: seq<MarketConfig>)
    requires Shadows(v, r) && Lost(v, r, gone) && Inv(r)
    requires forall c :: c in configs ==> c.id in r.markets && r.markets[c.id] == c && c.id in v.books
    ensures var r' := Rehouse(r, configs);
            && Shadows(v, r') && Lost(v, r', gone) && Inv(r') && r'.markets == r.markets
            && (forall m :: m in r.books ==> m in r'.books)
            && (forall c :: c in configs ==> c.id in r'.books)
    decreases |configs|
  {
    if configs == [] {
    } else {
      assert configs[0] in configs && forall c :: c in configs <==> c == configs[0] || c in configs[1..];
      RehouseOne(v, r, gone, configs[0]);
      AddMarketKeeps(r, configs[0]);
      RehouseShadows(v, AddMarket(r, configs[0]), gone, configs[1..]);
    }
  }

  /** The engine after a restart that also registers its markets again, giving each a book. */
  function Reopened(v: EngineView, configs: seq<MarketConfig>): EngineView {
    Rehouse(Restarted(v), configs)
  }

  lemma {:induction false} NoneQuiet(v: EngineView, ops: seq<Op>, world: World)
    ensures Spared(v, {}, ops, world)
    decreases |ops|
  {
    if ops == [] {
    } else {
      assert NextQuiet(v, {}, ops[0], world) == {};
      NoneQuiet(Step(v, ops[0], world).0, ops[1..], world);
    }
  }

  lemma ReopenedHouses(v: EngineView, configs: seq<MarketConfig>)
    requires Inv(v) && BooksReplay(v) && Housed(v) && Configures(configs, v.markets)
    requires forall m :: m in v.books ==> m in v.markets
    ensures var r := Reopened(v, configs);
            Inv(r) && Shadows(v, r) && Lost(v, r, ClosedIn(v)) && Lacks(v, r, {})
  {
    RestartKeeps(v);
    RestartedShadows(v);
    RestartLoses(v);
    RehouseShadows(v, Restarted(v), ClosedIn(v), configs);
    var r := Reopened(v, configs);
    forall m | m in v.books ensures m in r.books {
      assert v.markets[m] in configs && v.markets[m].id == m;
    }
  }

  /** With no market quiet, the two engines crash in the same runs. */
  lemma {:induction false} CrashAlike(v: EngineView, r: EngineView, gone: set<OrderId>, ops: seq<Op>, world: World)
    requires Predicted(v, r, {}, gone, ops, world)
    ensures NoCrash(v, ops, world) <==> NoCrash(r, ops, world)
    decreases |ops|
  {
    if ops == [] {
    } else {
      assert NextQuiet(v, {}, ops[0], world) == {};
      CrashAlike(Step(v, ops[0], world).0, Step(r, ops[0], world).0, NextGone(gone, ops[0]), ops[1..], world);
    }
  }

  /** Reopening an engine whose books are those of the log, under any later operations. */
  lemma ReopenFrom(v: EngineView, configs: seq<MarketConfig>, after: seq<Op>, world: World)
    requires Inv(v) && BooksReplay(v) && Housed(v) && Configures(configs, v.markets)
    requires (forall m :: m in v.books ==> m in v.markets) && FreshIds(v, after, world)
    ensures Shadows(v, Reopened(v, configs)) && Predicted(v, Reopened(v, configs), {}, ClosedIn(v), after, world)
    ensures Shadows(Run(v, after, world), Run(Reopened(v, configs), after, world))
    ensures NoCrash(v, after, world) <==> NoCrash(Reopened(v, configs), after, world)
    ensures NoRestart(after) ==> NoCrash(v, after, world)
  {
    SyncedAgrees(v);
    ReopenedHouses(v, configs);
    NoneQuiet(v, after, world);
    ShadowRun(v, Reopened(v, configs), {}, ClosedIn(v), after, world);
    CrashAlike(v, Reopened(v, configs), ClosedIn(v), after, world);
    if NoRestart(after) { HousedRun(v, after, world); }
  }

  /**
   * Registering the markets again removes the exception: the restored engine crashes only when the one that
   * never stopped does, which is only after another restart.
   */
  lemma ReopenedEquivalence(before: seq<Op>, configs: seq<MarketConfig>, after: seq<Op>, world: World)
    requires FreshIds(NEW_ENGINE, before, world) && NoForce(before) && NoCrash(NEW_ENGINE, before, world)
    requires Housed(Run(NEW_ENGINE, before, world))
    requires Configures(configs, Run(NEW_ENGINE, before, world).markets)
    requires FreshIds(Run(NEW_ENGINE, before, world), after, world)
    ensures var v := Run(NEW_ENGINE, before, world);
            var r := Reopened(v, configs);
            && Shadows(v, r) && Predicted(v, r, {}, ClosedIn(v), after, world)
            && Shadows(Run(v, after, world), Run(r, after, world))
            && (NoCrash(v, after, world) <==> NoCrash(r, after, world))
            && (NoRestart(after) ==> NoCrash(r, after, world))
  {
    RunRestartable(before, world);
    NewCanRun(before, world);
    BooksRegistered(NEW_ENGINE, before, world);
    ReopenFrom(Run(NEW_ENGINE, before, world), configs, after, world);
  }

  /** Only registered markets have books. */
  lemma {:induction false} BooksRegistered(v: EngineView, ops: seq<Op>, world: World)
    requires CanRun(v, ops, world) && forall m :: m in v.books ==> m in v.markets
    ensures forall m :: m in Run(v, ops, world).books ==> m in Run(v, ops, world).markets
    decreases |ops|
  {
    if ops == [] {
    } else {
      FirstStep(v, ops, world);
      if ops[0].OpRestart? { RestartRegistered(v); } else { BooksRegisteredStep(v, ops[0], world); }
      BooksRegistered(Step(v, ops[0], world).0, ops[1..], world);
    }
  }

  lemma RestartRegistered(v: EngineView)
    requires Inv(v)
    ensures forall m :: m in Restarted(v).books ==> m in Restarted(v).markets
  {
    if v.log != [] { RestartedFields(v); }
  }

  lemma BooksRegisteredStep(v: EngineView, op: Op, world: World)
    requires !op.OpRestart? && forall m :: m in v.books ==> m in v.markets
    ensures forall m :: m in Step(v, op, world).0.books ==> m in Step(v, op, world).0.markets
  {
    if op.OpSubmit? || op.OpCancel? || op.OpCancelAll? { RequestKeys(v, op, world); }
  }

  // ---- One request after a restart -----------------------------------------------------------------

  /** The request crashes an engine restored from this one: it reaches a market where nothing rests. */
  ghost predicate HitsQuiet(v: EngineView, op: Op, world: World) {
    match op
    case OpSubmit(s, nowMs, _) => Passes(v, s, nowMs, world) && OpenIds(BookOf(v, s.marketId)) == {}
    case OpCancel(id, _) => id in v.index && OpenIds(BookOf(v, v.index[id])) == {}
    case _ => false
  }

  lemma HitsStrike(v: EngineView, op: Op, world: World)
    requires Inv(v) && BooksReplay(v) && Housed(v) && v.log != []
    ensures HitsQuiet(v, op, world) <==> Strikes(v, Restarted(v), op, world)
  {
    if op.OpSubmit? {
      PassesGates(v, op.signed, op.nowMs, op.freshId, world);
      RestartedHouses(v, op.signed.marketId);
    } else if op.OpCancel? && op.orderId in v.index {
      RestartedHouses(v, v.index[op.orderId]);
    }
  }

  lemma HousedCancels(v: EngineView, id: OrderId, trader: TraderId, world: World)
    requires Inv(v) && Housed(v)
    ensures !Cancel(v, id, trader, world).1.CancelPanicked?
  {
    assert IndexTracks(v, WorkingOf(v));
  }

  lemma HousedServes(v: EngineView, op: Op, world: World)
    requires Inv(v) && Housed(v)
    ensures !Panics(Step(v, op, world).1)
  {
    if op.OpSubmit? {
      PassesGates(v, op.signed, op.nowMs, op.freshId, world);
    } else if op.OpCancel? {
      HousedCancels(v, op.orderId, op.traderId, world);
    }
  }

  /**
   * Which requests crash a restored engine: an order that is accepted in a market where nothing rests, and a
   * cancel of any order ever accepted in such a market. The engine that never stopped answers every one.
   */
  lemma RestartPanics(v: EngineView, op: Op, world: World)
    requires Inv(v) && BooksReplay(v) && Housed(v) && v.log != []
    ensures !Panics(Step(v, op, world).1)
    ensures Panics(Step(Restarted(v), op, world).1) <==> HitsQuiet(v, op, world)
  {
    RestartKeeps(v);
    RestartedShadows(v);
    HousedServes(v, op, world);
    HitsStrike(v, op, world);
    ShadowStep(v, Restarted(v), op, world);
  }

  lemma PassesGates(v: EngineView, s: SignedOrder, nowMs: nat, freshId: OrderId, world: World)
    ensures var outcome := Submit(v, s, nowMs, freshId, world).1;
            && (outcome.Panicked? <==> Passes(v, s, nowMs, world) && s.marketId !in v.books)
            && (outcome.Accepted? && !outcome.result.isDuplicate ==> Passes(v, s, nowMs, world))
            && (Passes(v, s, nowMs, world) ==> s.marketId in v.markets)
  {
  }
}
