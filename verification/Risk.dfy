/** The pre-trade rate limiter and its size and price gates: src/risk/mod.rs. */
module Risk {
  import opened Basics
  import opened Domain

  datatype MarketRiskConfig = MarketRiskConfig(maxOrderSizeLots: nat, priceBandBps: nat)

  datatype RiskConfig = RiskConfig(
    maxOrdersPerWindow: nat,
    windowMs: nat,
    markets: map<MarketId, MarketRiskConfig>)

  datatype RiskError =
    | RateLimitExceeded(traderId: TraderId, count: nat, windowMs: nat, max: nat)
    | OrderTooLarge(marketId: MarketId, sizeLots: nat, maxLots: nat)
    | PriceOutsideBand(marketId: MarketId, priceTicks: nat, referenceTicks: nat, bandBps: nat)

  datatype RiskView = RiskView(windows: map<TraderId, seq<nat>>, references: map<MarketId, nat>)

  const NEW_CHECKER := RiskView(map[], map[])

  datatype Submission = Submission(traderId: TraderId, marketId: MarketId, priceTicks: nat, sizeLots: nat, now: nat)

  // ---- Saturating arithmetic -------------------------------------------------------------------

  const U64_MAX: nat := 0xFFFF_FFFF_FFFF_FFFF

  function Saturate(x: nat): nat {
    if x > U64_MAX then U64_MAX else x
  }

  function SaturatingSub(a: nat, b: nat): nat {
    if a < b then 0 else a - b
  }

  // ---- The gates -------------------------------------------------------------------------------

  /** The timestamps at or after `start`, in order. */
  function Since(times: seq<nat>, start: nat): (r: seq<nat>)
    ensures |r| <= |times|
  {
    if times == [] then [] else
      var last := |times| - 1;
      Since(times[..last], start) + (if times[last] >= start then [times[last]] else [])
  }

  function RateGate(config: RiskConfig, windows: map<TraderId, seq<nat>>, trader: TraderId,
                    now: nat): Option<RiskError> {
    var count := |Since(Lookup(windows, trader, []), SaturatingSub(now, config.windowMs))|;
    if count >= config.maxOrdersPerWindow
    then Some(RateLimitExceeded(trader, count, config.windowMs, config.maxOrdersPerWindow))
    else None
  }

  function BandGate(market: MarketId, price: nat, reference: nat, bandBps: nat): Option<RiskError> {
    var band := Saturate(reference * bandBps) / 10_000;
    if price < SaturatingSub(reference, band) || price > Saturate(reference + band)
    then Some(PriceOutsideBand(market, price, reference, bandBps))
    else None
  }

  /** Size, then the band if it is on and the market has traded; nothing for an unconfigured market. */
  function MarketGate(config: RiskConfig, references: map<MarketId, nat>, s: Submission): Option<RiskError> {
    if s.marketId !in config.markets then None else
      var limits := config.markets[s.marketId];
      if s.sizeLots > limits.maxOrderSizeLots
        then Some(OrderTooLarge(s.marketId, s.sizeLots, limits.maxOrderSizeLots))
      else if limits.priceBandBps > 0 && s.marketId in references
        then BandGate(s.marketId, s.priceTicks, references[s.marketId], limits.priceBandBps)
      else None
  }

  function Gate(config: RiskConfig, v: RiskView, s: Submission): Option<RiskError> {
    var limited := RateGate(config, v.windows, s.traderId, s.now);
    if limited.Some? then limited else MarketGate(config, v.references, s)
  }

  /** An accepted submission prunes the trader's window and joins it. */
  function Recorded(config: RiskConfig, v: RiskView, s: Submission): RiskView {
    var kept := Since(Lookup(v.windows, s.traderId, []), SaturatingSub(s.now, config.windowMs));
    v.(windows := v.windows[s.traderId := kept + [s.now]])
  }

  // ---- The class -------------------------------------------------------------------------------

  class RiskChecker {
    const config: RiskConfig
    var windows: map<TraderId, seq<nat>>
    var referencePrices: map<MarketId, nat>

    function View(): RiskView
      reads this
    {
      RiskView(windows, referencePrices)
    }

    constructor (c: RiskConfig)
      ensures config == c && View() == NEW_CHECKER
    {
      config, windows, referencePrices := c, map[], map[];
    }

    method UpdateReferencePrice(market: MarketId, price: nat)
      modifies this`referencePrices
      ensures View() == old(View()).(references := old(referencePrices)[market := price])
    {
      referencePrices := referencePrices[market := price];
    }

    /** All checks, in the program's order; an error leaves the checker as it was. */
    method Check(s: Submission) returns (r: Result<(), RiskError>)
      modifies this`windows
      ensures match Gate(config, old(View()), s)
              case Some(e) => r == Err(e) && View() == old(View())
              case None => r == Ok(()) && View() == Recorded(config, old(View()), s)
    {
      var limited := RateGate(config, windows, s.traderId, s.now);
      if limited.Some? { return Err(limited.value); }
      if s.marketId in config.markets {
        var limits := config.markets[s.marketId];
        if s.sizeLots > limits.maxOrderSizeLots {
          return Err(OrderTooLarge(s.marketId, s.sizeLots, limits.maxOrderSizeLots));
        }
      }
      if s.marketId in config.markets {
        var limits := config.markets[s.marketId];
        if limits.priceBandBps > 0 {
          if s.marketId in referencePrices {
            var outside := BandGate(s.marketId, s.priceTicks, referencePrices[s.marketId], limits.priceBandBps);
            if outside.Some? { return Err(outside.value); }
          }
        }
      }
      RecordSubmission(s.traderId, s.now);
      return Ok(());
    }

    method RecordSubmission(trader: TraderId, now: nat)
      modifies this`windows
      ensures windows == old(windows)[trader
                         := Since(Lookup(old(windows), trader, []), SaturatingSub(now, config.windowMs)) + [now]]
    {
      var timestamps := if trader in windows then windows[trader] else [];
      timestamps := Since(timestamps, SaturatingSub(now, config.windowMs));
      timestamps := timestamps + [now];
      windows := windows[trader := timestamps];
    }
  }

  // ---- What each answer means ------------------------------------------------------------------

  /** The stored submissions that lie within the window that ends now. */
  ghost function InWindow(times: seq<nat>, now: nat, windowMs: nat): set<int> {
    set i | 0 <= i < |times| && times[i] + windowMs >= now
  }

  lemma {:induction false} SinceCounts(times: seq<nat>, now: nat, windowMs: nat)
    ensures |Since(times, SaturatingSub(now, windowMs))| == |InWindow(times, now, windowMs)|
  {
    if times == [] {
      assert InWindow(times, now, windowMs) == {};
    } else {
      var last := |times| - 1;
      SinceCounts(times[..last], now, windowMs);
      assert InWindow(times, now, windowMs)
          == InWindow(times[..last], now, windowMs) + (if times[last] + windowMs >= now then {last} else {});
    }
  }

  function Distance(a: nat, b: nat): nat {
    if a < b then b - a else a - b
  }

  /** The documented band: the price deviates from the reference by more than so many basis points of it. */
  predicate Deviates(price: nat, reference: nat, bandBps: nat) {
    Distance(price, reference) * 10_000 > reference * bandBps
  }

  /** The band gate compares the deviation with the product as far as it fits 64 bits. */
  lemma BandIsDeviation(market: MarketId, price: nat, reference: nat, bandBps: nat)
    requires price <= U64_MAX && reference <= U64_MAX
    ensures BandGate(market, price, reference, bandBps)
         == if Distance(price, reference) * 10_000 > Saturate(reference * bandBps)
            then Some(PriceOutsideBand(market, price, reference, bandBps)) else None
  {
    var x := Saturate(reference * bandBps);
    assert Distance(price, reference) * 10_000 > x <==> Distance(price, reference) > x / 10_000;
  }

  ghost predicate BandAsDocumented(market: MarketId, reference: nat, bandBps: nat) {
    forall price: nat :: price <= U64_MAX ==>
      (BandGate(market, price, reference, bandBps).Some? <==> Deviates(price, reference, bandBps))
  }

  /**
   * The gate lets no price outside the documented band through. It lets every price inside through if and only if
   * the band of the unbounded product is no wider than that of the largest 64-bit number.
   */
  lemma BandExact(market: MarketId, reference: nat, bandBps: nat)
    requires reference <= U64_MAX
    ensures forall price: nat :: price <= U64_MAX && Deviates(price, reference, bandBps) ==>
              BandGate(market, price, reference, bandBps).Some?
    ensures BandAsDocumented(market, reference, bandBps) <==> reference * bandBps / 10_000 <= U64_MAX / 10_000
  {
    var x := reference * bandBps;
    var past := U64_MAX / 10_000 + 1;
    forall price: nat | price <= U64_MAX
      ensures Deviates(price, reference, bandBps) ==> BandGate(market, price, reference, bandBps).Some?
      ensures x / 10_000 <= U64_MAX / 10_000 && BandGate(market, price, reference, bandBps).Some?
              ==> Deviates(price, reference, bandBps)
    {
      BandIsDeviation(market, price, reference, bandBps);
      if x / 10_000 <= U64_MAX / 10_000 { SameBand(Distance(price, reference), x); }
    }
    if x / 10_000 > U64_MAX / 10_000 {
      var price := if reference >= past then reference - past else reference + past;
      BandIsDeviation(market, price, reference, bandBps);
      assert Distance(price, reference) == past;
      assert !Deviates(price, reference, bandBps);
    }
  }

  lemma SameBand(distance: nat, x: nat)
    requires x / 10_000 <= U64_MAX / 10_000
    ensures distance * 10_000 > x <==> distance * 10_000 > Saturate(x)
  {
    assert distance * 10_000 > x <==> distance > x / 10_000;
    assert distance * 10_000 > Saturate(x) <==> distance > Saturate(x) / 10_000;
  }

  /** Too many submissions in the window that ends now. */
  ghost predicate Flooded(config: RiskConfig, v: RiskView, s: Submission) {
    |InWindow(Lookup(v.windows, s.traderId, []), s.now, config.windowMs)| >= config.maxOrdersPerWindow
  }

  predicate Oversized(config: RiskConfig, s: Submission) {
    s.marketId in config.markets && s.sizeLots > config.markets[s.marketId].maxOrderSizeLots
  }

  /** The market has a band, it has traded, and the price is too far from its last trade. */
  predicate FarOff(config: RiskConfig, v: RiskView, s: Submission) {
    && s.marketId in config.markets && s.marketId in v.references
    && var bps := config.markets[s.marketId].priceBandBps;
    bps > 0 && Distance(s.priceTicks, v.references[s.marketId]) * 10_000 > Saturate(v.references[s.marketId] * bps)
  }

  /** Every answer of the checker: the first condition that fails, with the numbers it was decided by. */
  lemma GateDecides(config: RiskConfig, v: RiskView, s: Submission)
    requires s.priceTicks <= U64_MAX && (s.marketId in v.references ==> v.references[s.marketId] <= U64_MAX)
    ensures match Gate(config, v, s)
            case None => !Flooded(config, v, s) && !Oversized(config, s) && !FarOff(config, v, s)
            case Some(RateLimitExceeded(trader, count, windowMs, max)) =>
              && Flooded(config, v, s) && trader == s.traderId
              && windowMs == config.windowMs && max == config.maxOrdersPerWindow
              && count == |InWindow(Lookup(v.windows, s.traderId, []), s.now, config.windowMs)|
            case Some(OrderTooLarge(market, size, max)) =>
              && !Flooded(config, v, s) && Oversized(config, s)
              && market == s.marketId && size == s.sizeLots && max == config.markets[s.marketId].maxOrderSizeLots
            case Some(PriceOutsideBand(market, price, reference, bps)) =>
              && !Flooded(config, v, s) && !Oversized(config, s) && FarOff(config, v, s)
              && market == s.marketId && price == s.priceTicks
              && reference == v.references[s.marketId] && bps == config.markets[s.marketId].priceBandBps
  {
    SinceCounts(Lookup(v.windows, s.traderId, []), s.now, config.windowMs);
    if s.marketId in config.markets && s.marketId in v.references {
      BandIsDeviation(s.marketId, s.priceTicks, v.references[s.marketId], config.markets[s.marketId].priceBandBps);
    }
  }

  // ---- Runs, pruned and unpruned ---------------------------------------------------------------

  datatype RiskOp = Check(submission: Submission) | Reference(marketId: MarketId, price: nat)

  /** `keep`: how the window is stored after an acceptance; the program prunes, the reference does not. */
  function RiskStep(config: RiskConfig, v: RiskView, op: RiskOp, prune: bool): (RiskView, Option<RiskError>) {
    match op
    case Reference(market, price) => (v.(references := v.references[market := price]), None)
    case Check(s) =>
      var error := Gate(config, v, s);
      if error.Some? then (v, error)
      else if prune then (Recorded(config, v, s), None)
      else (v.(windows := v.windows[s.traderId := Lookup(v.windows, s.traderId, []) + [s.now]]), None)
  }

  function RiskRun(config: RiskConfig, v: RiskView, ops: seq<RiskOp>, prune: bool): RiskView
    decreases |ops|
  {
    if ops == [] then v else
      RiskStep(config, RiskRun(config, v, ops[..|ops| - 1], prune), ops[|ops| - 1], prune).0
  }

  /** The answer to the last operation. */
  function Answer(config: RiskConfig, ops: seq<RiskOp>, i: nat, prune: bool): Option<RiskError>
    requires i < |ops|
  {
    RiskStep(config, RiskRun(config, NEW_CHECKER, ops[..i], prune), ops[i], prune).1
  }

  /** When the program accepted a submission of this trader, over the whole history. */
  function AcceptedTimes(config: RiskConfig, ops: seq<RiskOp>, trader: TraderId): seq<nat>
    decreases |ops|
  {
    if ops == [] then [] else
      var last := |ops| - 1;
      var op := ops[last];
      AcceptedTimes(config, ops[..last], trader)
      + (if op.Check? && op.submission.traderId == trader && Answer(config, ops, last, true).None?
         then [op.submission.now] else [])
  }

  ghost predicate ClockUpTo(ops: seq<RiskOp>, now: nat) {
    forall i :: 0 <= i < |ops| && ops[i].Check? ==> ops[i].submission.now <= now
  }

  /** The clock never steps back. */
  ghost predicate SteadyClock(ops: seq<RiskOp>) {
    forall i, j :: 0 <= i < j < |ops| && ops[i].Check? && ops[j].Check?
      ==> ops[i].submission.now <= ops[j].submission.now
  }

  // ---- Pruning loses nothing -------------------------------------------------------------------

  lemma {:induction false} SinceSince(times: seq<nat>, a: nat, b: nat)
    requires a <= b
    ensures Since(Since(times, a), b) == Since(times, b)
  {
    if times == [] {
    } else {
      var last := |times| - 1;
      var head := Since(times[..last], a);
      SinceSince(times[..last], a, b);
      if times[last] >= a {
        assert (head + [times[last]])[..|head|] == head;
      } else {
        assert Since(times, a) == head;
      }
    }
  }

  lemma SinceAppend(times: seq<nat>, t: nat, start: nat)
    ensures Since(times + [t], start) == Since(times, start) + (if t >= start then [t] else [])
  {
    assert (times + [t])[..|times|] == times;
  }

  /** Whatever the clock shows from `now` on, both stored lists give the same window. */
  ghost predicate SameWindows(config: RiskConfig, pruned: RiskView, full: RiskView, now: nat) {
    && pruned.references == full.references
    && (forall trader, start :: start >= SaturatingSub(now, config.windowMs) ==>
          Since(Lookup(pruned.windows, trader, []), start) == Since(Lookup(full.windows, trader, []), start))
    && (forall trader :: |Lookup(pruned.windows, trader, [])| <= config.maxOrdersPerWindow)
  }

  /** Recording an acceptance on both sides keeps one trader's window the same from now on. */
  lemma RecordSame(pruned: seq<nat>, full: seq<nat>, now: nat, start: nat, s: nat)
    requires start <= s && Since(pruned, s) == Since(full, s)
    ensures Since(Since(pruned, start) + [now], s) == Since(full + [now], s)
  {
    SinceSince(pruned, start, s);
    SinceAppend(Since(pruned, start), now, s);
    SinceAppend(full, now, s);
  }

  lemma RecordedSame(config: RiskConfig, pruned: RiskView, full: RiskView, s: Submission, before: nat)
    requires SameWindows(config, pruned, full, before) && before <= s.now
    requires RateGate(config, pruned.windows, s.traderId, s.now).None?
    ensures SameWindows(config, Recorded(config, pruned, s),
                        full.(windows := full.windows[s.traderId
                                         := Lookup(full.windows, s.traderId, []) + [s.now]]), s.now)
  {
    var start := SaturatingSub(s.now, config.windowMs);
    var p, f := pruned.windows, full.windows;
    var p', f' := Recorded(config, pruned, s).windows, f[s.traderId := Lookup(f, s.traderId, []) + [s.now]];
    forall trader, at | at >= start ensures Since(Lookup(p', trader, []), at) == Since(Lookup(f', trader, []), at) {
      assert Since(Lookup(p, trader, []), at) == Since(Lookup(f, trader, []), at);
      if trader == s.traderId { RecordSame(Lookup(p, trader, []), Lookup(f, trader, []), s.now, start, at); }
    }
    forall trader ensures |Lookup(p', trader, [])| <= config.maxOrdersPerWindow {
      assert |Lookup(p, trader, [])| <= config.maxOrdersPerWindow;
    }
  }

  lemma StepSame(config: RiskConfig, pruned: RiskView, full: RiskView, op: RiskOp, before: nat, now: nat)
    requires SameWindows(config, pruned, full, before) && before <= now
    requires op.Check? ==> op.submission.now == now
    ensures var p, f := RiskStep(config, pruned, op, true), RiskStep(config, full, op, false);
            p.1 == f.1 && SameWindows(config, p.0, f.0, now)
  {
    if op.Check? {
      var s := op.submission;
      assert RateGate(config, pruned.windows, s.traderId, s.now) == RateGate(config, full.windows, s.traderId, s.now);
      if Gate(config, pruned, s).None? { RecordedSame(config, pruned, full, s, before); }
    }
  }

  /** The last clock reading of a run. */
  function ClockOf(ops: seq<RiskOp>): nat
    decreases |ops|
  {
    if ops == [] then 0
    else if ops[|ops| - 1].Check? then ops[|ops| - 1].submission.now
    else ClockOf(ops[..|ops| - 1])
  }

  lemma {:induction false} ClockBefore(ops: seq<RiskOp>, now: nat)
    requires ClockUpTo(ops, now)
    ensures ClockOf(ops) <= now
    decreases |ops|
  {
    if ops != [] && !ops[|ops| - 1].Check? {
      ClockBefore(ops[..|ops| - 1], now);
    }
  }

  lemma {:induction false} RunSame(config: RiskConfig, ops: seq<RiskOp>)
    requires SteadyClock(ops)
    ensures SameWindows(config, RiskRun(config, NEW_CHECKER, ops, true), RiskRun(config, NEW_CHECKER, ops, false),
                        ClockOf(ops))
    decreases |ops|
  {
    if ops == [] {
    } else {
      var last := |ops| - 1;
      RunSame(config, ops[..last]);
      if ops[last].Check? { ClockBefore(ops[..last], ops[last].submission.now); }
      StepSame(config, RiskRun(config, NEW_CHECKER, ops[..last], true),
               RiskRun(config, NEW_CHECKER, ops[..last], false), ops[last], ClockOf(ops[..last]), ClockOf(ops));
    }
  }

  /**
   * Pruning is invisible: while the clock never steps back, every answer is the one a limiter that keeps
   * every timestamp would give, and no stored window is longer than the limit.
   */
  lemma {:induction false} PruningRefines(config: RiskConfig, ops: seq<RiskOp>, i: nat)
    requires SteadyClock(ops) && i < |ops|
    ensures Answer(config, ops, i, true) == Answer(config, ops, i, false)
    ensures var stored := RiskRun(config, NEW_CHECKER, ops, true).windows;
            forall trader :: |Lookup(stored, trader, [])| <= config.maxOrdersPerWindow
  {
    RunSame(config, ops);
    RunSame(config, ops[..i]);
    if ops[i].Check? { ClockBefore(ops[..i], ops[i].submission.now); }
    StepSame(config, RiskRun(config, NEW_CHECKER, ops[..i], true), RiskRun(config, NEW_CHECKER, ops[..i], false),
             ops[i], ClockOf(ops[..i]), if ops[i].Check? then ops[i].submission.now else ClockOf(ops[..i]));
  }

  // ---- The rate limit over the whole history ---------------------------------------------------

  function Within(times: seq<nat>, lo: nat, hi: nat): (r: seq<nat>)
    ensures |r| <= |times|
  {
    if times == [] then [] else
      var last := |times| - 1;
      Within(times[..last], lo, hi) + (if lo <= times[last] <= hi then [times[last]] else [])
  }

  /** Any `max + 1` accepted submissions in a row span more than the window. */
  ghost predicate Spaced(times: seq<nat>, max: nat, window: nat) {
    && (forall i, j :: 0 <= i < j < |times| ==> times[i] <= times[j])
    && (forall i, j :: 0 <= i && j == i + max && j < |times| ==> times[j] > times[i] + window)
  }

  lemma {:induction false} WithinConcat(a: seq<nat>, b: seq<nat>, lo: nat, hi: nat)
    ensures Within(a + b, lo, hi) == Within(a, lo, hi) + Within(b, lo, hi)
    decreases |b|
  {
    if b == [] {
      assert a + b == a;
    } else {
      assert (a + b)[..|a + b| - 1] == a + b[..|b| - 1];
      WithinConcat(a, b[..|b| - 1], lo, hi);
    }
  }

  lemma {:induction false} WithinNone(times: seq<nat>, lo: nat, hi: nat)
    requires forall i :: 0 <= i < |times| ==> times[i] < lo
    ensures Within(times, lo, hi) == []
  {
    if times == [] {
    } else {
      WithinNone(times[..|times| - 1], lo, hi);
    }
  }

  lemma LastOnly(times: seq<nat>, k: nat, lo: nat, hi: nat)
    requires k <= |times| && forall i :: 0 <= i < k ==> times[i] < lo
    ensures |Within(times, lo, hi)| <= |times| - k
  {
    WithinNone(times[..k], lo, hi);
    WithinConcat(times[..k], times[k..], lo, hi);
    assert times == times[..k] + times[k..];
  }

  lemma {:induction false} SpacedBound(times: seq<nat>, max: nat, window: nat, lo: nat)
    requires Spaced(times, max, window)
    ensures |Within(times, lo, lo + window)| <= max
    decreases |times|
  {
    var n := |times|;
    if n > max {
      if lo <= times[n - 1] <= lo + window {
        assert times[n - 1] > times[n - 1 - max] + window;
        LastOnly(times, n - max, lo, lo + window);
      } else {
        SpacedBound(times[..n - 1], max, window, lo);
      }
    }
  }

  /** A suffix of a non-decreasing list is what lies at or after its first element. */
  lemma {:induction false} SinceCount(times: seq<nat>, k: nat, start: nat)
    requires forall i, j :: 0 <= i < j < |times| ==> times[i] <= times[j]
    requires k < |times| && times[k] >= start
    ensures |Since(times, start)| >= |times| - k
    decreases |times|
  {
    var last := |times| - 1;
    if k < last { SinceCount(times[..last], k, start); }
  }

  /** Passing the rate gate keeps the spacing. */
  lemma GateSpaces(config: RiskConfig, times: seq<nat>, now: nat)
    requires Spaced(times, config.maxOrdersPerWindow, config.windowMs)
    requires forall i :: 0 <= i < |times| ==> times[i] <= now
    requires |Since(times, SaturatingSub(now, config.windowMs))| < config.maxOrdersPerWindow
    ensures Spaced(times + [now], config.maxOrdersPerWindow, config.windowMs)
  {
    var k := |times| - config.maxOrdersPerWindow;
    if k >= 0 && times[k] + config.windowMs >= now {
      SinceCount(times, k, SaturatingSub(now, config.windowMs));
    }
  }

  /** The unpruned limiter stores exactly the accepted submissions. */
  lemma {:induction false} HistoryStored(config: RiskConfig, ops: seq<RiskOp>, trader: TraderId)
    requires SteadyClock(ops)
    ensures Lookup(RiskRun(config, NEW_CHECKER, ops, false).windows, trader, []) == AcceptedTimes(config, ops, trader)
    decreases |ops|
  {
    if ops == [] {
    } else {
      HistoryStored(config, ops[..|ops| - 1], trader);
      PruningRefines(config, ops, |ops| - 1);
      HistoryStep(config, ops, trader);
    }
  }

  lemma HistoryStep(config: RiskConfig, ops: seq<RiskOp>, trader: TraderId)
    requires ops != [] && Answer(config, ops, |ops| - 1, true) == Answer(config, ops, |ops| - 1, false)
    requires var before := ops[..|ops| - 1];
             Lookup(RiskRun(config, NEW_CHECKER, before, false).windows, trader, [])
             == AcceptedTimes(config, before, trader)
    ensures Lookup(RiskRun(config, NEW_CHECKER, ops, false).windows, trader, []) == AcceptedTimes(config, ops, trader)
  {
  }

  /** One accepted submission more: the gate it passed keeps the spacing. */
  lemma AcceptedSpaces(config: RiskConfig, ops: seq<RiskOp>, times: seq<nat>)
    requires SteadyClock(ops) && ops != [] && ops[|ops| - 1].Check? && Answer(config, ops, |ops| - 1, false).None?
    requires times == AcceptedTimes(config, ops[..|ops| - 1], ops[|ops| - 1].submission.traderId)
    requires Spaced(times, config.maxOrdersPerWindow, config.windowMs)
    requires forall i :: 0 <= i < |times| ==> times[i] <= ops[|ops| - 1].submission.now
    ensures Spaced(times + [ops[|ops| - 1].submission.now], config.maxOrdersPerWindow, config.windowMs)
  {
    var s := ops[|ops| - 1].submission;
    HistoryStored(config, ops[..|ops| - 1], s.traderId);
    GateSpaces(config, times, s.now);
  }

  /** They are properly spaced, and none is later than the clock. */
  lemma {:induction false} HistorySpaced(config: RiskConfig, ops: seq<RiskOp>, trader: TraderId)
    requires SteadyClock(ops)
    ensures var times := AcceptedTimes(config, ops, trader);
            && Spaced(times, config.maxOrdersPerWindow, config.windowMs)
            && forall i :: 0 <= i < |times| ==> times[i] <= ClockOf(ops)
    decreases |ops|
  {
    if ops == [] {
    } else {
      var last := |ops| - 1;
      HistorySpaced(config, ops[..last], trader);
      if ops[last].Check? {
        ClockBefore(ops[..last], ops[last].submission.now);
        PruningRefines(config, ops, last);
        if ops[last].submission.traderId == trader && Answer(config, ops, last, false).None? {
          AcceptedSpaces(config, ops, AcceptedTimes(config, ops[..last], trader));
        }
      }
    }
  }

  /**
   * The rate limit: over the whole history of a checker whose clock never steps back, no closed interval
   * as long as the window holds more than the allowed number of accepted submissions of one trader.
   */
  lemma {:induction false} RateLimitHolds(config: RiskConfig, ops: seq<RiskOp>, trader: TraderId, lo: nat)
    requires SteadyClock(ops)
    ensures |Within(AcceptedTimes(config, ops, trader), lo, lo + config.windowMs)| <= config.maxOrdersPerWindow
  {
    var times := AcceptedTimes(config, ops, trader);
    assert Spaced(times, config.maxOrdersPerWindow, config.windowMs) by { HistorySpaced(config, ops, trader); }
    SpacedBound(times, config.maxOrdersPerWindow, config.windowMs, lo);
  }

  // ---- A clock that steps back -----------------------------------------------------------------

  /** The promise of the limiter for one history, trader and interval. */
  ghost predicate WindowKept(config: RiskConfig, ops: seq<RiskOp>, trader: TraderId, lo: nat) {
    |Within(AcceptedTimes(config, ops, trader), lo, lo + config.windowMs)| <= config.maxOrdersPerWindow
  }

  /** The promise of the limiter for one history, whatever its clock did. */
  ghost predicate LimitKept(config: RiskConfig, ops: seq<RiskOp>) {
    forall trader: TraderId, lo: nat :: WindowKept(config, ops, trader, lo)
  }

  /** A limit of at most one keeps only the last acceptance, and that one blocks every clock but a later one. */
  ghost predicate Tight(config: RiskConfig, stored: seq<nat>, times: seq<nat>) {
    && stored == (if times == [] then [] else [times[|times| - 1]])
    && Spaced(times, 1, config.windowMs)
    && (config.maxOrdersPerWindow == 0 ==> times == [])
  }

  lemma TightStep(config: RiskConfig, stored: seq<nat>, times: seq<nat>, now: nat)
    requires config.maxOrdersPerWindow <= 1 && Tight(config, stored, times)
    requires |Since(stored, SaturatingSub(now, config.windowMs))| < config.maxOrdersPerWindow
    ensures Tight(config, Since(stored, SaturatingSub(now, config.windowMs)) + [now], times + [now])
  {
    if times != [] {
      var last := times[|times| - 1];
      assert [last][..0] == [] && now > last + config.windowMs;
    }
  }

  lemma {:induction false} TightSpaced(config: RiskConfig, ops: seq<RiskOp>, trader: TraderId)
    requires config.maxOrdersPerWindow <= 1
    ensures Tight(config, Lookup(RiskRun(config, NEW_CHECKER, ops, true).windows, trader, []),
                  AcceptedTimes(config, ops, trader))
    decreases |ops|
  {
    if ops == [] {
    } else {
      var last := |ops| - 1;
      var v, times := RiskRun(config, NEW_CHECKER, ops[..last], true), AcceptedTimes(config, ops[..last], trader);
      TightSpaced(config, ops[..last], trader);
      var stored := Lookup(v.windows, trader, []);
      if Taken(config, ops, trader) {
        assert Answer(config, ops, last, true) == RiskStep(config, v, ops[last], true).1;
        TightStep(config, stored, times, ops[last].submission.now);
      } else {
        NotTaken(config, ops, trader);
      }
    }
  }

  /** The last operation is an accepted submission of this trader. */
  ghost predicate Taken(config: RiskConfig, ops: seq<RiskOp>, trader: TraderId)
    requires ops != []
  {
    var last := |ops| - 1;
    ops[last].Check? && ops[last].submission.traderId == trader && Answer(config, ops, last, true).None?
  }

  /** Any other operation leaves the trader's window and history as they were. */
  lemma NotTaken(config: RiskConfig, ops: seq<RiskOp>, trader: TraderId)
    requires ops != [] && !Taken(config, ops, trader)
    ensures var before := ops[..|ops| - 1];
            && AcceptedTimes(config, ops, trader) == AcceptedTimes(config, before, trader)
            && Lookup(RiskRun(config, NEW_CHECKER, ops, true).windows, trader, [])
               == Lookup(RiskRun(config, NEW_CHECKER, before, true).windows, trader, [])
  {
    var last := |ops| - 1;
    var v := RiskRun(config, NEW_CHECKER, ops[..last], true);
    assert Answer(config, ops, last, true) == RiskStep(config, v, ops[last], true).1;
  }

  lemma {:induction false} TightLimit(config: RiskConfig, ops: seq<RiskOp>)
    requires config.maxOrdersPerWindow <= 1
    ensures LimitKept(config, ops)
  {
    forall trader: TraderId, lo: nat ensures WindowKept(config, ops, trader, lo) {
      var times := AcceptedTimes(config, ops, trader);
      assert Spaced(times, 1, config.windowMs) && (config.maxOrdersPerWindow == 0 ==> times == []) by {
        TightSpaced(config, ops, trader);
      }
      SpacedBound(times, 1, config.windowMs, lo);
    }
  }

  /** A submission no gate but the rate gate can refuse before the market has traded. */
  function At(t: nat): RiskOp {
    Check(Submission(TraderId([1]), MarketId([2]), 0, 0, t))
  }

  /** An accepted submission of the one trader, after `ops` left that trader's window at `times`. */
  lemma {:induction false} Accepts(config: RiskConfig, ops: seq<RiskOp>, times: seq<nat>, kept: seq<nat>, t: nat)
    requires |kept| < config.maxOrdersPerWindow
    requires RiskRun(config, NEW_CHECKER, ops, true).references == map[]
    requires Lookup(RiskRun(config, NEW_CHECKER, ops, true).windows, TraderId([1]), []) == times
    requires Since(times, SaturatingSub(t, config.windowMs)) == kept
    ensures var run := RiskRun(config, NEW_CHECKER, ops + [At(t)], true);
            run.references == map[] && Lookup(run.windows, TraderId([1]), []) == kept + [t]
    ensures AcceptedTimes(config, ops + [At(t)], TraderId([1])) == AcceptedTimes(config, ops, TraderId([1])) + [t]
  {
    assert (ops + [At(t)])[..|ops|] == ops;
  }

  function Repeat<T>(x: T, n: nat): (r: seq<T>)
    ensures |r| == n && forall i :: 0 <= i < n ==> r[i] == x
  {
    if n == 0 then [] else Repeat(x, n - 1) + [x]
  }

  lemma {:induction false} SinceAll(times: seq<nat>, start: nat)
    requires forall i :: 0 <= i < |times| ==> times[i] >= start
    ensures Since(times, start) == times
  {
    if times == [] {
    } else {
      SinceAll(times[..|times| - 1], start);
    }
  }

  lemma {:induction false} SinceNone(times: seq<nat>, start: nat)
    requires forall i :: 0 <= i < |times| ==> times[i] < start
    ensures Since(times, start) == []
  {
    if times == [] {
    } else {
      SinceNone(times[..|times| - 1], start);
    }
  }

  lemma {:induction false} WithinAll(times: seq<nat>, lo: nat, hi: nat)
    requires forall i :: 0 <= i < |times| ==> lo <= times[i] <= hi
    ensures Within(times, lo, hi) == times
  {
    if times == [] {
    } else {
      WithinAll(times[..|times| - 1], lo, hi);
    }
  }

  /** A window filled to the limit at one instant. */
  lemma {:induction false} Burst(config: RiskConfig, t: nat, n: nat)
    requires n <= config.maxOrdersPerWindow
    ensures var run := RiskRun(config, NEW_CHECKER, Repeat(At(t), n), true);
            run.references == map[] && Lookup(run.windows, TraderId([1]), []) == Repeat(t, n)
    ensures AcceptedTimes(config, Repeat(At(t), n), TraderId([1])) == Repeat(t, n)
  {
    if n == 0 {
    } else {
      Burst(config, t, n - 1);
      SinceAll(Repeat(t, n - 1), SaturatingSub(t, config.windowMs));
      Accepts(config, Repeat(At(t), n - 1), Repeat(t, n - 1), Repeat(t, n - 1), t);
    }
  }

  /** As many submissions as the limit allows, one much later, and one at the first instant again. */
  function StepBack(config: RiskConfig, t: nat, late: nat): seq<RiskOp> {
    Repeat(At(t), config.maxOrdersPerWindow) + [At(late)] + [At(t)]
  }

  lemma {:induction false} WithinSnoc(times: seq<nat>, x: nat, lo: nat, hi: nat)
    ensures Within(times + [x], lo, hi) == Within(times, lo, hi) + if lo <= x <= hi then [x] else []
  {
    assert (times + [x])[..|times|] == times;
  }

  lemma {:induction false} StepBackWithin(burst: seq<nat>, t: nat, late: nat, window: nat)
    requires late > t + window && forall i :: 0 <= i < |burst| ==> burst[i] == t
    ensures |Within(burst + [late] + [t], t, t + window)| == |burst| + 1
  {
    var hi := t + window;
    assert Within(burst + [late], t, hi) == burst by {
      WithinAll(burst, t, hi);
      WithinSnoc(burst, late, t, hi);
    }
    WithinSnoc(burst + [late], t, t, hi);
  }

  /** However full the window is, a late submission empties it, and an early one no longer sees the burst. */
  lemma {:induction false} AfterBurst(config: RiskConfig, burst: seq<RiskOp>, times: seq<nat>, t: nat, late: nat)
    requires config.maxOrdersPerWindow >= 2 && late > t + config.windowMs
    requires forall i :: 0 <= i < |times| ==> times[i] == t
    requires RiskRun(config, NEW_CHECKER, burst, true).references == map[]
    requires Lookup(RiskRun(config, NEW_CHECKER, burst, true).windows, TraderId([1]), []) == times
    requires AcceptedTimes(config, burst, TraderId([1])) == times
    ensures AcceptedTimes(config, burst + [At(late)] + [At(t)], TraderId([1])) == times + [late] + [t]
  {
    SinceNone(times, SaturatingSub(late, config.windowMs));
    Accepts(config, burst, times, [], late);
    SinceAll([late], SaturatingSub(t, config.windowMs));
    Accepts(config, burst + [At(late)], [late], [late], t);
  }

  lemma {:induction false} StepBackTimes(config: RiskConfig, t: nat, late: nat)
    requires config.maxOrdersPerWindow >= 2 && late > t + config.windowMs
    ensures AcceptedTimes(config, StepBack(config, t, late), TraderId([1]))
         == Repeat(t, config.maxOrdersPerWindow) + [late] + [t]
  {
    Burst(config, t, config.maxOrdersPerWindow);
    AfterBurst(config, Repeat(At(t), config.maxOrdersPerWindow), Repeat(t, config.maxOrdersPerWindow), t, late);
  }

  lemma {:induction false} StepBackBreaks(config: RiskConfig, t: nat, late: nat)
    requires config.maxOrdersPerWindow >= 2 && late > t + config.windowMs
    ensures var times := AcceptedTimes(config, StepBack(config, t, late), TraderId([1]));
            |Within(times, t, t + config.windowMs)| == config.maxOrdersPerWindow + 1
  {
    StepBackTimes(config, t, late);
    StepBackWithin(Repeat(t, config.maxOrdersPerWindow), t, late, config.windowMs);
  }

  /**
   * Under a clock that may step back, the limiter keeps its promise on every history exactly when the limit
   * is at most one: with any higher limit, a burst, one late submission and a step back exceed it.
   */
  lemma {:induction false} AnyClock(config: RiskConfig)
    ensures (forall ops :: LimitKept(config, ops)) <==> config.maxOrdersPerWindow <= 1
  {
    if config.maxOrdersPerWindow <= 1 {
      forall ops ensures LimitKept(config, ops) { TightLimit(config, ops); }
    } else {
      var late := config.windowMs + 1;
      StepBackBreaks(config, 0, late);
      var ops := StepBack(config, 0, late);
      assert !WindowKept(config, ops, TraderId([1]), 0);
      assert !LimitKept(config, ops);
    }
  }
}
