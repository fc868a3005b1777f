/** Incremental pruning against the whole signal history. */
module WindowHistory {
  import opened Breaker
  import opened SignalWindow
  import opened CoreState
  import opened CoreHistory

  /** Two point lists nobody can tell apart at cutoffs from lo on. */
  ghost predicate Agree(window: seq<SignalPoint>, history: seq<SignalPoint>, lo: int) {
    forall cutoff :: cutoff >= lo ==> Keep(window, cutoff) == Keep(history, cutoff)
  }

  lemma AgreeAppend(window: seq<SignalPoint>, history: seq<SignalPoint>, lo: int, point: SignalPoint)
    requires Agree(window, history, lo)
    ensures Agree(window + [point], history + [point], lo)
  {
    forall cutoff | cutoff >= lo ensures Keep(window + [point], cutoff) == Keep(history + [point], cutoff) {
      KeepAppend(window, point, cutoff);
      KeepAppend(history, point, cutoff);
    }
  }

  lemma AgreePrune(window: seq<SignalPoint>, history: seq<SignalPoint>, lo: int, hi: int)
    requires Agree(window, history, lo) && lo <= hi
    ensures Agree(Keep(window, hi), history, hi)
  {
    forall cutoff | cutoff >= hi ensures Keep(Keep(window, hi), cutoff) == Keep(history, cutoff) {
      KeepKeep(window, hi, cutoff);
    }
  }

  /** Every window still shows what a tick at or after the clock would read off the whole history. */
  ghost predicate WindowInv(cfg: CoreConfig, c: Core, t: Trace, clock: int) {
    forall m :: Agree(WindowOf(c, m), SignalsOf(t, m), clock - cfg.window)
  }

  lemma LaterKeepsWindows(cfg: CoreConfig, c: Core, t: Trace, clock: int, now: int)
    requires WindowInv(cfg, c, t, clock) && clock <= now
    ensures WindowInv(cfg, c, t, now)
  {
    forall m ensures Agree(WindowOf(c, m), SignalsOf(t, m), now - cfg.window) {
      assert Agree(WindowOf(c, m), SignalsOf(t, m), clock - cfg.window);
    }
  }

  lemma PruneKeepsWindows(cfg: CoreConfig, c: Core, t: Trace, c': Core, t': Trace, m: string, now: int)
    requires WindowInv(cfg, c, t, now)
    requires c'.windows == PruneMarket(cfg, c, m, now).windows && t'.signals == t.signals
    ensures WindowInv(cfg, c', t', now)
  {
    forall k ensures Agree(WindowOf(c', k), SignalsOf(t', k), now - cfg.window) {
      assert Agree(WindowOf(c, k), SignalsOf(t, k), now - cfg.window);
      if k == m && WindowOf(c, m) != [] {
        AgreePrune(WindowOf(c, m), SignalsOf(t, m), now - cfg.window, now - cfg.window);
      }
    }
  }

  lemma IngestKeepsWindows(cfg: CoreConfig, c: Core, t: Trace, marketId: string, point: SignalPoint, now: int)
    requires WindowInv(cfg, c, t, now)
    ensures WindowInv(cfg, Ingest(cfg, c, marketId, point, now), TraceIngest(cfg, c, t, marketId, point, now), now)
  {
    var m := Resolve(cfg, marketId);
    var seen := EnsureMarket(c, m, now);
    var added := seen.(windows := seen.windows[m := WindowOf(seen, m) + [Stamp(point, now)]]);
    var t' := TraceIngest(cfg, c, t, marketId, point, now);
    forall k ensures Agree(WindowOf(added, k), SignalsOf(t', k), now - cfg.window) {
      assert Agree(WindowOf(c, k), SignalsOf(t, k), now - cfg.window);
      if k == m {
        AgreeAppend(WindowOf(c, m), SignalsOf(t, m), now - cfg.window, Stamp(point, now));
      }
    }
    PruneKeepsWindows(cfg, added, t', Ingest(cfg, c, marketId, point, now), t', m, now);
  }

  lemma ClearKeepsWindows(cfg: CoreConfig, c: Core, t: Trace, marketId: string, now: int)
    requires WindowInv(cfg, c, t, now)
    ensures WindowInv(cfg, Clear(cfg, c, marketId, now), TraceClear(cfg, c, t, marketId, now), now)
  {
    var m := Resolve(cfg, marketId);
    var c', t' := Clear(cfg, c, marketId, now), TraceClear(cfg, c, t, marketId, now);
    forall k ensures Agree(WindowOf(c', k), SignalsOf(t', k), now - cfg.window) {
      assert Agree(WindowOf(c, k), SignalsOf(t, k), now - cfg.window);
    }
  }

  /** The metrics an evaluation uses are the sums over the whole history since the last clear, restricted to
      the window: no earlier prune dropped a point that counts, out-of-order and future points included. */
  lemma DecideReadsHistory(cfg: CoreConfig, c: Core, t: Trace, m: string, now: int)
    requires WindowInv(cfg, c, t, now)
    ensures Decide(cfg, c, m, now) ==
            ApplyBreaker(now, if m in c.markets then c.markets[m] else FirstSeen(m, now),
                         Sum(Keep(SignalsOf(t, m), now - cfg.window)), cfg.breaker)
  {
    assert Agree(WindowOf(c, m), SignalsOf(t, m), now - cfg.window);
  }
}
