/** The circuit breaker of one market. */
module Breaker {
  import opened Domain

  datatype BreakerConfig = BreakerConfig(betCountThreshold: int, liabilityThreshold: int, cooldown: int)

  datatype WindowMetrics = WindowMetrics(betCount: int, stakeSum: int, liabilityDelta: int)

  datatype Verdict = Verdict(next: MarketState, kind: EventType, transitioned: bool)

  const DEFAULT_BREAKER_CONFIG := BreakerConfig(120, 2_000_000, 60_000)

  predicate BelowThresholds(metrics: WindowMetrics, cfg: BreakerConfig) {
    metrics.betCount < cfg.betCountThreshold && metrics.liabilityDelta < cfg.liabilityThreshold
  }

  /** The first threshold that is reached; no reason is given exactly when none is. */
  function SuspensionReason(metrics: WindowMetrics, cfg: BreakerConfig): (reason: Option<BreakerReason>)
    ensures reason.None? <==> BelowThresholds(metrics, cfg)
    ensures reason == Some(BetRateSpike) <==> metrics.betCount >= cfg.betCountThreshold
    ensures reason == Some(LiabilitySpike) <==>
            metrics.betCount < cfg.betCountThreshold && metrics.liabilityDelta >= cfg.liabilityThreshold
  {
    if metrics.betCount >= cfg.betCountThreshold then
      Some(BetRateSpike)
    else if metrics.liabilityDelta >= cfg.liabilityThreshold then
      Some(LiabilitySpike)
    else
      None
  }

  function SuspendMarket(state: MarketState, now: int, reason: BreakerReason, cfg: BreakerConfig): MarketState {
    state.(status := Suspended, cooldownUntil := now + cfg.cooldown, lastReason := reason, lastTransition := now)
  }

  predicate CanReopenMarket(now: int, state: MarketState, metrics: WindowMetrics, cfg: BreakerConfig) {
    now >= state.cooldownUntil && BelowThresholds(metrics, cfg)
  }

  function ApplyBreaker(now: int, prev: MarketState, metrics: WindowMetrics, cfg: BreakerConfig): Verdict {
    var measured := prev.(betCount := metrics.betCount, stakeSum := metrics.stakeSum,
                          liabilityDelta := metrics.liabilityDelta);
    var next := if measured.status == NoStatus then measured.(status := Open) else measured;
    if next.status == Open then
      match SuspensionReason(metrics, cfg)
      case Some(reason) => Verdict(SuspendMarket(next, now, reason, cfg), MarketSuspended, true)
      case None => Verdict(next, MarketUpdated, false)
    else if next.status == Suspended && CanReopenMarket(now, next, metrics, cfg) then
      Verdict(next.(status := Open, cooldownUntil := 0, lastReason := NoReason, lastTransition := now),
              MarketReopened, true)
    else
      Verdict(next, MarketUpdated, false)
  }

  /** The event type a tick publishes for a verdict. */
  function PublishedKind(verdict: Verdict): EventType {
    if verdict.transitioned then verdict.kind else MarketUpdated
  }

  /** The rule of the breaker, field by field. A market is over when either sum reaches its threshold. An open one, or
      one without a status, suspends exactly when it is over; a suspended one reopens exactly when it is not and its
      deadline has come. Whatever happens, the market shows the new sums, and its identity does not change. */
  predicate FollowsRule(now: int, prev: MarketState, metrics: WindowMetrics, cfg: BreakerConfig,
                        next: MarketState, kind: EventType, transitioned: bool)
  {
    var spike := metrics.betCount >= cfg.betCountThreshold;
    var over := spike || metrics.liabilityDelta >= cfg.liabilityThreshold;
    var suspends := (prev.status == Open || prev.status == NoStatus) && over;
    var reopens := prev.status == Suspended && !over && now >= prev.cooldownUntil;
    && next.marketId == prev.marketId
    && next.betCount == metrics.betCount
    && next.stakeSum == metrics.stakeSum
    && next.liabilityDelta == metrics.liabilityDelta
    && transitioned == (suspends || reopens)
    && kind == (if suspends then MarketSuspended else if reopens then MarketReopened else MarketUpdated)
    && (suspends ==>
        && next.status == Suspended
        && next.cooldownUntil == now + cfg.cooldown
        && next.lastReason == (if spike then BetRateSpike else LiabilitySpike)
        && next.lastTransition == now)
    && (reopens ==>
        && next.status == Open
        && next.cooldownUntil == 0
        && next.lastReason == NoReason
        && next.lastTransition == now)
    && (!suspends && !reopens ==>
        && next.status == (if prev.status == NoStatus then Open else prev.status)
        && next.cooldownUntil == prev.cooldownUntil
        && next.lastReason == prev.lastReason
        && next.lastTransition == prev.lastTransition)
  }

  /** A verdict follows the rule, for every input, and nothing else does. */
  lemma BreakerVerdict(now: int, prev: MarketState, metrics: WindowMetrics, cfg: BreakerConfig, v: Verdict)
    ensures v == ApplyBreaker(now, prev, metrics, cfg) <==>
            FollowsRule(now, prev, metrics, cfg, v.next, v.kind, v.transitioned)
  {
  }

  /** Evaluating again at the same time with the same metrics changes nothing: one tick settles a market,
      whatever the configuration, even with a negative cooldown. */
  lemma BreakerIsIdempotent(now: int, prev: MarketState, metrics: WindowMetrics, cfg: BreakerConfig)
    ensures
      var once := ApplyBreaker(now, prev, metrics, cfg).next;
      ApplyBreaker(now, once, metrics, cfg) == Verdict(once, MarketUpdated, false)
  {
    var once := ApplyBreaker(now, prev, metrics, cfg).next;
    if once.status == Suspended && prev.status != Suspended {
      assert !BelowThresholds(metrics, cfg);
    }
  }

  /** When a known market changes status, and what a market that keeps its status keeps with it. */
  lemma BreakerTransitions(now: int, prev: MarketState, metrics: WindowMetrics, cfg: BreakerConfig)
    requires KnownStatus(prev.status)
    ensures
      var v := ApplyBreaker(now, prev, metrics, cfg);
      && KnownStatus(v.next.status)
      && v.next.marketId == prev.marketId
      && (PublishedKind(v) == MarketSuspended <==> prev.status == Open && v.next.status == Suspended)
      && (PublishedKind(v) == MarketReopened <==> prev.status == Suspended && v.next.status == Open)
      && (PublishedKind(v) == MarketUpdated <==> prev.status == v.next.status)
      && (v.next.status == Open ==> BelowThresholds(metrics, cfg))
      && (prev.status == Suspended && v.next.status == Open <==>
          prev.status == Suspended && BelowThresholds(metrics, cfg) && now >= prev.cooldownUntil)
      && (prev.status == v.next.status ==>
          v.next.cooldownUntil == prev.cooldownUntil && v.next.lastTransition == prev.lastTransition)
      && (PublishedKind(v) == MarketSuspended ==>
          v.next.lastTransition == now && v.next.cooldownUntil == now + cfg.cooldown)
      && (PublishedKind(v) == MarketReopened ==> v.next.lastTransition == now >= prev.cooldownUntil)
  {
  }
}
