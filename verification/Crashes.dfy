/** What the log is worth after a crash. */
module Crashes {
  import opened Domain
  import opened Matching
  import opened MatchTheory
  import opened EngineSpec
  import opened Live
  import opened Steps
  import opened Restart

  /** Some order the log leaves open in the market would have traded with this one. */
  ghost predicate WouldTrade(orders: Orders, o: Order) {
    exists id :: id in OpenOrders(orders, o.terms.marketId)
      && orders[id].terms.side == o.terms.side.Opposite() && Crosses(o, orders[id].terms.price)
  }

  lemma AdmittedUncrossed(orders: Orders, o: Order, m: MarketId)
    requires Arriving(o) && o.terms.orderId !in orders && Uncrossed(OpenOrders(orders, m))
    ensures Uncrossed(OpenOrders(orders[o.terms.orderId := o], m)) <==> o.terms.marketId != m || !WouldTrade(orders, o)
  {
    var id := o.terms.orderId;
    var a, b := OpenOrders(orders, m), OpenOrders(orders[id := o], m);
    if o.terms.marketId == m {
      assert b == a[id := o];
      if WouldTrade(orders, o) {
        var x :| x in a && orders[x].terms.side == o.terms.side.Opposite() && Crosses(o, orders[x].terms.price);
        assert x in b && id in b;
      }
    } else {
      assert b == a;
    }
  }

  lemma AdmittedLogUncrossed(orders: Orders, o: Order)
    requires Arriving(o) && o.terms.orderId !in orders && LogUncrossed(orders)
    ensures LogUncrossed(orders[o.terms.orderId := o]) <==> !WouldTrade(orders, o)
  {
    var after := orders[o.terms.orderId := o];
    assert Uncrossed(OpenOrders(after, o.terms.marketId)) <==> !WouldTrade(orders, o) by {
      AdmittedUncrossed(orders, o, o.terms.marketId);
    }
    forall m ensures Uncrossed(OpenOrders(after, m)) <==> o.terms.marketId != m || !WouldTrade(orders, o) {
      AdmittedUncrossed(orders, o, m);
    }
  }

  /** The crash leaves the order admitted and nothing else done. */
  lemma CrashAdmits(v: EngineView, s: SignedOrder, nowMs: nat, freshId: OrderId, world: World)
    requires Inv(v) && freshId !in v.index && Passes(v, s, nowMs, world) && s.marketId !in v.books
    ensures var o := NewOrder(s, freshId, v.nextSeqId, nowMs);
            && Submit(v, s, nowMs, freshId, world) == (Admit(v, o, world.wall), Panicked)
            && Inv(Admit(v, o, world.wall)) && WorkingOf(Admit(v, o, world.wall)) == Admitted(WorkingOf(v), o)
            && Arriving(o) && freshId !in WorkingOf(v).orders
  {
    var w, o := WorkingOf(v), NewOrder(s, freshId, v.nextSeqId, nowMs);
    SubmitCases(v, s, nowMs, freshId, world);
    IntakeIsLegal(v, w, s, nowMs, freshId, world);
    AdmitTracks(v, w, o, world.wall);
    TracksIsInv(Admit(v, o, world.wall), Admitted(w, o));
  }

  /**
   * A submission that dies for want of a book has already logged its order, unmatched. A restart from that log
   * agrees with it all the same, but its books are uncrossed exactly when the order would not have traded with
   * any the log leaves open in its market.
   */
  lemma CrashThenRestart(v: EngineView, s: SignedOrder, nowMs: nat, freshId: OrderId, world: World)
    requires Inv(v) && LogUncrossed(WorkingOf(v).orders) && freshId !in v.index
    requires Passes(v, s, nowMs, world) && s.marketId !in v.books
    ensures var r := Submit(v, s, nowMs, freshId, world);
            && r.1.Panicked? && Inv(r.0) && Inv(Restarted(r.0))
            && (NoneCrossed(Restarted(r.0))
                <==> !WouldTrade(WorkingOf(v).orders, NewOrder(s, freshId, v.nextSeqId, nowMs)))
  {
    var o := NewOrder(s, freshId, v.nextSeqId, nowMs);
    CrashAdmits(v, s, nowMs, freshId, world);
    RestartKeeps(Admit(v, o, world.wall));
    RestartUncrossed(Admit(v, o, world.wall));
    AdmittedLogUncrossed(WorkingOf(v).orders, o);
  }
}
