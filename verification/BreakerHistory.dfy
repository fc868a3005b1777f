/** Suspensions and reopenings of one market, as they appear in the log. */
module BreakerHistory {
  import opened Domain
  import opened Breaker
  import opened CoreState
  import opened CoreHistory

  /** An acknowledged row about the market, of the given kind. */
  predicate Logged(rows: seq<Event>, t: Trace, m: string, i: int) {
    0 <= i < |rows| && rows[i].marketId == m && Acked(t.acks, i)
  }

  predicate LoggedAs(rows: seq<Event>, t: Trace, m: string, i: int, kind: EventType) {
    Logged(rows, t, m, i) && rows[i].kind == kind
  }

  /** No acknowledged reopening of the market strictly between the two rows. */
  ghost predicate NoReopening(rows: seq<Event>, t: Trace, m: string, i: int, k: int) {
    forall j :: i < j < k ==> !LoggedAs(rows, t, m, j, MarketReopened)
  }

  ghost predicate BreakerLog(cfg: CoreConfig, rows: seq<Event>, t: Trace) {
    && (forall i :: 0 <= i < |rows| ==> WellFormed(rows[i]))
    && (forall i: nat :: i < |rows| ==> RowFollows(cfg.breaker, rows, t, i))
    && (forall m :: m in t.firstSeen ==> t.firstSeen[m].status == Open)
  }

  /** From a suspension to the reopening that ends it: no second suspension, the deadline and the transition
      time stay put, and the reopening waits out the cooldown. No assumption on the clock. */
  lemma {:induction false} SuspensionEpisode(cfg: CoreConfig, rows: seq<Event>, t: Trace, m: string, i: int, k: int)
    requires BreakerLog(cfg, rows, t)
    requires LoggedAs(rows, t, m, i, MarketSuspended) && Logged(rows, t, m, k) && i < k
    requires NoReopening(rows, t, m, i, k)
    ensures rows[k].kind != MarketSuspended
    ensures MarketOf(rows[i]).cooldownUntil == MarketOf(rows[i]).lastTransition + cfg.breaker.cooldown
    ensures rows[k].kind == MarketUpdated ==>
              && MarketOf(rows[k]).status == Suspended
              && MarketOf(rows[k]).cooldownUntil == MarketOf(rows[i]).cooldownUntil
              && MarketOf(rows[k]).lastTransition == MarketOf(rows[i]).lastTransition
    ensures rows[k].kind == MarketReopened ==>
              MarketOf(rows[k]).lastTransition >= MarketOf(rows[i]).lastTransition + cfg.breaker.cooldown
    decreases k
  {
    assert RowFollows(cfg.breaker, rows, t, i) && RowFollows(cfg.breaker, rows, t, k);
    var j := LastAcked(rows[..k], t.acks, m);
    assert rows[..k][i] == rows[i];
    assert i <= j < k && Logged(rows, t, m, j);
    if j > i {
      SuspensionEpisode(cfg, rows, t, m, i, j);
      assert !LoggedAs(rows, t, m, j, MarketReopened);
    }
  }

  /** A market whose acknowledged row shows it suspended was suspended by an earlier row, and not reopened since. */
  lemma {:induction false} SuspendedBySomeRow(cfg: CoreConfig, rows: seq<Event>, t: Trace, m: string, j: int)
    returns (i: int)
    requires BreakerLog(cfg, rows, t)
    requires Logged(rows, t, m, j) && MarketOf(rows[j]).status == Suspended
    ensures i <= j && LoggedAs(rows, t, m, i, MarketSuspended)
    ensures NoReopening(rows, t, m, i, j + 1)
    decreases j
  {
    assert RowFollows(cfg.breaker, rows, t, j);
    if rows[j].kind == MarketSuspended {
      i := j;
    } else {
      i := SuspendedBefore(cfg, rows, t, m, j);
    }
  }

  /** The same for the state a market was in just before a row. */
  lemma {:induction false} SuspendedBefore(cfg: CoreConfig, rows: seq<Event>, t: Trace, m: string, k: int)
    returns (i: int)
    requires BreakerLog(cfg, rows, t)
    requires Logged(rows, t, m, k) && rows[k].kind != MarketSuspended
    requires rows[k].kind == MarketReopened || MarketOf(rows[k]).status == Suspended
    ensures i < k && LoggedAs(rows, t, m, i, MarketSuspended)
    ensures NoReopening(rows, t, m, i, k)
    ensures rows[k].kind != MarketReopened ==> NoReopening(rows, t, m, i, k + 1)
    decreases k, 0
  {
    assert RowFollows(cfg.breaker, rows, t, k);
    var j := LastAcked(rows[..k], t.acks, m);
    assert j >= 0 && Logged(rows, t, m, j) && MarketOf(rows[j]).status == Suspended;
    i := SuspendedBySomeRow(cfg, rows, t, m, j);
    forall x | i < x < k ensures !LoggedAs(rows, t, m, x, MarketReopened) {
      assert rows[..k][x] == rows[x];
    }
  }

  /** Suspensions and reopenings alternate, starting with a suspension: between two suspensions there is a
      reopening, and every reopening ends exactly one suspension, at least the cooldown after it. */
  lemma TransitionsAlternate(cfg: CoreConfig, rows: seq<Event>, t: Trace, m: string)
    requires BreakerLog(cfg, rows, t)
    ensures forall i, k :: i < k && LoggedAs(rows, t, m, i, MarketSuspended) && LoggedAs(rows, t, m, k, MarketSuspended)
              ==> !NoReopening(rows, t, m, i, k)
    ensures forall k :: LoggedAs(rows, t, m, k, MarketReopened) ==>
              exists i :: i < k && LoggedAs(rows, t, m, i, MarketSuspended) && NoReopening(rows, t, m, i, k) &&
                MarketOf(rows[k]).lastTransition >= MarketOf(rows[i]).lastTransition + cfg.breaker.cooldown
  {
    forall i, k | i < k && LoggedAs(rows, t, m, i, MarketSuspended) && LoggedAs(rows, t, m, k, MarketSuspended)
      ensures !NoReopening(rows, t, m, i, k)
    {
      if NoReopening(rows, t, m, i, k) {
        SuspensionEpisode(cfg, rows, t, m, i, k);
      }
    }
    forall k | LoggedAs(rows, t, m, k, MarketReopened)
      ensures exists i :: i < k && LoggedAs(rows, t, m, i, MarketSuspended) && NoReopening(rows, t, m, i, k) &&
                MarketOf(rows[k]).lastTransition >= MarketOf(rows[i]).lastTransition + cfg.breaker.cooldown
    {
      var i := SuspendedBefore(cfg, rows, t, m, k);
      SuspensionEpisode(cfg, rows, t, m, i, k);
    }
  }

  // ---------- Every row acknowledged ----------

  /** The suspensions and reopenings of a market, in log order. */
  function Transitions(rows: seq<Event>, m: string): seq<Event> {
    if rows == [] then []
    else
      var rest := Transitions(rows[..|rows| - 1], m);
      var last := rows[|rows| - 1];
      if last.marketId == m && last.kind != MarketUpdated then rest + [last] else rest
  }

  /** Suspended, reopened, suspended, ..., each reopening at least the cooldown after its suspension. */
  predicate Alternate(cooldown: int, transitions: seq<Event>) {
    && (forall i :: 0 <= i < |transitions| ==>
        transitions[i].kind == if i % 2 == 0 then MarketSuspended else MarketReopened)
    && (forall i :: 0 <= i < |transitions| && i % 2 == 1 ==>
        MarketOf(transitions[i]).lastTransition >= MarketOf(transitions[i - 1]).lastTransition + cooldown)
  }

  /** A market state as the transitions so far leave it. */
  predicate LeftBy(cooldown: int, transitions: seq<Event>, state: MarketState) {
    if |transitions| % 2 == 0 then state.status == Open
    else
      var suspension := MarketOf(transitions[|transitions| - 1]);
      && state.status == Suspended
      && state.lastTransition == suspension.lastTransition
      && state.cooldownUntil == suspension.lastTransition + cooldown
  }

  lemma AllAckedLast(rows: seq<Event>, acks: seq<bool>, m: string)
    requires |rows| <= |acks| && forall i :: 0 <= i < |acks| ==> acks[i]
    ensures LastAcked(rows, acks, m) == LastIndex(rows, m)
  {
  }

  lemma NextTransition(cooldown: int, transitions: seq<Event>, prev: MarketState, evt: Event, cfg: BreakerConfig)
    requires Alternate(cooldown, transitions) && LeftBy(cooldown, transitions, prev)
    requires cfg.cooldown == cooldown && BreakerStep(cfg, prev, evt) && !evt.kind.OtherType?
    ensures
      var after := if evt.kind == MarketUpdated then transitions else transitions + [evt];
      Alternate(cooldown, after) && LeftBy(cooldown, after, MarketOf(evt))
  {
  }

  /** If every row was acknowledged, the transitions of each market alternate, and the log's fold of a market is
      what its last transition left. */
  lemma {:induction false} AcknowledgedTransitions(cfg: CoreConfig, rows: seq<Event>, t: Trace, m: string, n: nat)
    requires BreakerLog(cfg, rows, t) && m in t.firstSeen && n <= |rows| <= |t.acks|
    requires forall i :: 0 <= i < |t.acks| ==> t.acks[i]
    ensures Alternate(cfg.breaker.cooldown, Transitions(rows[..n], m))
    ensures LeftBy(cfg.breaker.cooldown, Transitions(rows[..n], m), LogValue(t.firstSeen[m], rows, n, m))
  {
    if n > 0 {
      var k := n - 1;
      AcknowledgedTransitions(cfg, rows, t, m, k);
      assert rows[..n][..k] == rows[..k];
      if rows[k].marketId == m {
        assert RowFollows(cfg.breaker, rows, t, k);
        AllAckedLast(rows[..k], t.acks, m);
        NextTransition(cfg.breaker.cooldown, Transitions(rows[..k], m), LogValue(t.firstSeen[m], rows, k, m), rows[k],
                       cfg.breaker);
      }
    }
  }
}
