/** Startup: a new engine with the markets registered and the log restored, src/main.rs and src/engine/mod.rs. */
module Recovery {
  import opened Domain
  import opened Books
  import opened EngineSpec
  import opened Steps
  import opened Restart
  import opened ReplayLoop
  import opened Engines
  import Depth

  lemma StartedMore(markets: map<MarketId, MarketConfig>, c: MarketConfig)
    ensures AddMarket(Started(markets), c) == Started(markets[c.id := c])
  {
  }

  /** The part of the configuration registered so far. */
  ghost predicate Partly(done: map<MarketId, MarketConfig>, todo: set<MarketId>, markets: map<MarketId, MarketConfig>) {
    todo <= markets.Keys && done.Keys == markets.Keys - todo && forall m :: m in done ==> done[m] == markets[m]
  }

  lemma PartlyMore(done: map<MarketId, MarketConfig>, todo: set<MarketId>, markets: map<MarketId, MarketConfig>,
                   m: MarketId)
    requires Partly(done, todo, markets) && m in todo
    ensures Partly(done[m := markets[m]], todo - {m}, markets)
  {
  }

  lemma PartlyAll(done: map<MarketId, MarketConfig>, markets: map<MarketId, MarketConfig>)
    requires Partly(done, {}, markets)
    ensures done == markets
  {
  }

  method NewStarted(world: World) returns (e: Engine)
    ensures fresh(e) && fresh(e.sequencer) && fresh(e.state) && fresh(Objects(e.books))
    ensures e.Sound() && e.View() == Started(map[]) && e.world == world
  {
    e := new Engine(world);
    assert e.books.Keys == BooksView(e.books).Keys == {};
  }

  method RegisterOne(e: Engine, markets: map<MarketId, MarketConfig>, m: MarketId,
                     ghost done: map<MarketId, MarketConfig>, ghost todo: set<MarketId>)
    requires e.Sound() && e.View() == Started(done) && Partly(done, todo, markets) && m in todo
    requires markets[m].id == m
    modifies e`books, e`markets
    ensures e.Sound() && e.View() == Started(done[m := markets[m]])
            && Partly(done[m := markets[m]], todo - {m}, markets)
    ensures fresh(Objects(e.books) - old(Objects(e.books)))
  {
    StartedMore(done, markets[m]);
    PartlyMore(done, todo, markets, m);
    e.AddMarketConfig(markets[m]);
  }

  /** Registers every configured market, in whatever order the configuration yields them. */
  method RegisterAll(markets: map<MarketId, MarketConfig>, world: World) returns (e: Engine)
    requires forall m :: m in markets ==> markets[m].id == m
    ensures fresh(e) && fresh(e.sequencer) && fresh(e.state) && fresh(Objects(e.books))
    ensures e.Sound() && e.View() == Started(markets) && e.world == world
  {
    e := NewStarted(world);
    var todo := markets.Keys;
    ghost var done: map<MarketId, MarketConfig> := map[];
    while todo != {}
      invariant Partly(done, todo, markets)
      invariant fresh(e) && fresh(e.sequencer) && fresh(e.state) && fresh(Objects(e.books))
      invariant e.Sound() && e.View() == Started(done) && e.world == world
      decreases |todo|
    {
      var m :| m in todo;
      RegisterOne(e, markets, m, done, todo);
      done, todo := done[m := markets[m]], todo - {m};
    }
    PartlyAll(done, markets);
  }

  // ---- The restored books ------------------------------------------------------------------------------

  /** What a reachable log leaves open is unfilled and distinctly numbered: the books built from it are well formed. */
  lemma ReplayedOrdersSound(v: EngineView)
    requires Inv(v)
    ensures SoundOrders(WorkingOf(v).orders)
  {
    LegalLogs.LogOpenNotFull(v.log);
  }

  lemma RestoredQueues(v: EngineView, m: MarketId, live: OrderBook, restored: OrderBook)
    requires Inv(v) && BooksReplay(v) && live.Valid() && restored.Valid()
    requires live.orders == BookOf(v, m) && restored.orders == BookOf(Restarted(v), m)
    ensures live.bids == restored.bids && live.asks == restored.asks
  {
    RestartedIsTwin(v);
    Depth.QueuesRebuilt(live, restored);
  }

  lemma NoQueues(v: EngineView, m: MarketId, live: OrderBook)
    requires Inv(v) && BooksReplay(v) && live.Valid() && live.orders == BookOf(v, m) && m !in Restarted(v).books
    ensures live.bids == map[] && live.asks == map[]
  {
    RestartedIsTwin(v);
    assert TwinBook(live.orders, map[]);
    Depth.TwinLevels(live.bids, live.orders, map[], map[], Buy);
    Depth.TwinLevels(live.asks, live.orders, map[], map[], Sell);
  }

  /** Market by market the same price levels and the same FIFO queues; a market without a book has none. */
  ghost predicate SameQueues(live: map<MarketId, OrderBook>, restored: map<MarketId, OrderBook>)
    reads Objects(live), Objects(restored)
  {
    forall m :: m in live ==>
      if m in restored then live[m].bids == restored[m].bids && live[m].asks == restored[m].asks
      else live[m].bids == map[] && live[m].asks == map[]
  }

  lemma AllQueues(v: EngineView, live: map<MarketId, OrderBook>, restored: map<MarketId, OrderBook>)
    requires Inv(v) && BooksReplay(v) && BooksView(live) == v.books && BooksView(restored) == Restarted(v).books
    requires SoundBooks(live) && SoundBooks(restored)
    ensures SameQueues(live, restored)
  {
    forall m | m in live
      ensures m in restored ==> live[m].bids == restored[m].bids && live[m].asks == restored[m].asks
      ensures m !in restored ==> live[m].bids == map[] && live[m].asks == map[]
    {
      assert m in BooksView(live) && BooksView(live)[m] == live[m].orders;
      if m in restored {
        assert m in BooksView(restored) && BooksView(restored)[m] == restored[m].orders;
        RestoredQueues(v, m, live[m], restored[m]);
      } else {
        assert m !in BooksView(restored);
        NoQueues(v, m, live[m]);
      }
    }
  }

  /** Registration, then the log. */
  method Reopen(markets: map<MarketId, MarketConfig>, log: seq<SequencedEvent>, world: World, ghost v: EngineView)
    returns (second: Engine)
    requires Inv(v) && v.markets == markets && v.log == log
    ensures fresh(second) && fresh(Objects(second.books)) && second.Sound() && second.View() == Restarted(v)
  {
    ReplayedOrdersSound(v);
    second := RegisterAll(markets, world);
    var _ := second.RestoreFromEvents(log);
  }

  /**
   * The program's startup on the log of a running engine: the new engine is the one `Restarted` describes,
   * and its books have the running engine's levels and queues.
   */
  method Recover(engine: Engine) returns (second: Engine)
    requires engine.Sound() && Inv(engine.View()) && BooksReplay(engine.View())
    ensures fresh(second) && second.Sound() && second.View() == Restarted(engine.View())
    ensures SameQueues(engine.books, second.books)
  {
    ghost var v := engine.View();
    second := Reopen(engine.markets, engine.sequencer.log, engine.world, v);
    AllQueues(v, engine.books, second.books);
  }
}
