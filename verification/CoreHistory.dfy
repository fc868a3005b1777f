/** What the core's state has to do with its log: history variables and the invariant that ties them. */
module CoreHistory {
  import opened Domain
  import opened Breaker
  import opened SignalWindow
  import opened CoreState

  /** Kept beside a run, never read by it: the state each market was first given, which rows were reported as
      stored, and every signal since the last clear. */
  datatype Trace = Trace(
    firstSeen: map<string, MarketState>,
    acks: seq<bool>,
    signals: map<string, seq<SignalPoint>>)

  // ---------- Reading the log ----------

  /** Index of the last row about a market, or -1. */
  function LastIndex(rows: seq<Event>, m: string): (k: int)
    ensures -1 <= k < |rows|
    ensures k >= 0 ==> rows[k].marketId == m
    ensures forall j :: k < j < |rows| ==> rows[j].marketId != m
  {
    if rows == [] then -1
    else if rows[|rows| - 1].marketId == m then |rows| - 1
    else LastIndex(rows[..|rows| - 1], m)
  }

  predicate Acked(acks: seq<bool>, i: int) {
    0 <= i < |acks| && acks[i]
  }

  /** Index of the last row about a market whose insert was reported as done, or -1. */
  function LastAcked(rows: seq<Event>, acks: seq<bool>, m: string): (k: int)
    ensures -1 <= k < |rows|
    ensures k >= 0 ==> rows[k].marketId == m && Acked(acks, k)
    ensures forall j :: k < j < |rows| && rows[j].marketId == m ==> !Acked(acks, j)
  {
    if rows == [] then -1
    else if rows[|rows| - 1].marketId == m && Acked(acks, |rows| - 1) then |rows| - 1
    else LastAcked(rows[..|rows| - 1], acks, m)
  }

  /** The market a row carries, or the state the market started from. */
  function ValueAt(init: MarketState, rows: seq<Event>, k: int): MarketState
    requires k < |rows|
  {
    if k < 0 then init else MarketOf(rows[k])
  }

  /** The fold of a log prefix: the last payload written about the market in rows[..n]. */
  function LogValue(init: MarketState, rows: seq<Event>, n: nat, m: string): MarketState
    requires n <= |rows|
  {
    ValueAt(init, rows[..n], LastIndex(rows[..n], m))
  }

  /** The last row about the market in rows[..n] was reported as stored, if there is one. */
  predicate Clean(rows: seq<Event>, acks: seq<bool>, n: nat, m: string)
    requires n <= |rows|
  {
    var k := LastIndex(rows[..n], m);
    k < 0 || Acked(acks, k)
  }

  /** Applying events to a map of markets, as a replica does. */
  function Fold(base: map<string, MarketState>, events: seq<Event>): map<string, MarketState> {
    if events == [] then base
    else
      var last := events[|events| - 1];
      Fold(base, events[..|events| - 1])[last.marketId := MarketOf(last)]
  }

  lemma {:induction false} FoldAt(base: map<string, MarketState>, events: seq<Event>, m: string)
    ensures m in Fold(base, events) <==> m in base || LastIndex(events, m) >= 0
    ensures m in Fold(base, events) && LastIndex(events, m) < 0 ==> Fold(base, events)[m] == base[m]
    ensures LastIndex(events, m) >= 0 ==> Fold(base, events)[m] == MarketOf(events[LastIndex(events, m)])
  {
    if events == [] {
    } else {
      FoldAt(base, events[..|events| - 1], m);
    }
  }

  lemma {:induction false} LastIndexConcat(a: seq<Event>, b: seq<Event>, m: string)
    ensures LastIndex(a + b, m) == if LastIndex(b, m) >= 0 then |a| + LastIndex(b, m) else LastIndex(a, m)
  {
    if b == [] {
      assert a + b == a;
    } else {
      LastIndexConcat(a, b[..|b| - 1], m);
      assert (a + b)[..|a + b| - 1] == a + b[..|b| - 1];
    }
  }

  /** Acknowledgements of later rows do not reach back. */
  lemma {:induction false} LastAckedStable(rows: seq<Event>, acks: seq<bool>, more: seq<bool>, m: string)
    requires |rows| <= |acks| && acks <= more
    ensures LastAcked(rows, acks, m) == LastAcked(rows, more, m)
  {
    if rows == [] {
    } else {
      LastAckedStable(rows[..|rows| - 1], acks, more, m);
    }
  }

  lemma LastAckedAppend(rows: seq<Event>, acks: seq<bool>, evt: Event, ack: bool, m: string)
    requires |acks| == |rows|
    ensures LastAcked(rows + [evt], acks + [ack], m) ==
            if evt.marketId == m && ack then |rows| else LastAcked(rows, acks, m)
  {
    assert (rows + [evt])[..|rows|] == rows;
    LastAckedStable(rows, acks, acks + [ack], m);
  }

  // ---------- The invariant ----------

  /** How one row may follow the state its market was in. */
  predicate BreakerStep(cfg: BreakerConfig, prev: MarketState, evt: Event) {
    var next := MarketOf(evt);
    && (evt.kind == MarketSuspended ==>
        prev.status == Open && next.status == Suspended && next.cooldownUntil == next.lastTransition + cfg.cooldown)
    && (evt.kind == MarketReopened ==>
        prev.status == Suspended && next.status == Open && next.lastTransition >= prev.cooldownUntil)
    && (evt.kind == MarketUpdated ==>
        next.status == prev.status && next.cooldownUntil == prev.cooldownUntil &&
        next.lastTransition == prev.lastTransition)
  }

  /** Row i follows from the state its market had after the last acknowledged row before it. */
  predicate RowFollows(cfg: BreakerConfig, rows: seq<Event>, t: Trace, i: nat)
    requires i < |rows|
  {
    var m := rows[i].marketId;
    m in t.firstSeen && BreakerStep(cfg, ValueAt(t.firstSeen[m], rows[..i], LastAcked(rows[..i], t.acks, m)), rows[i])
  }

  /** A market is its last acknowledged payload. */
  predicate MarketFollows(c: Core, t: Trace, m: string)
    requires m in c.markets
  {
    m in t.firstSeen && c.markets[m] == ValueAt(t.firstSeen[m], c.rows, LastAcked(c.rows, t.acks, m))
  }

  /** A row later than its market's last acknowledged one says something the market is not. */
  predicate RowDiffers(c: Core, t: Trace, i: nat)
    requires i < |c.rows|
  {
    var m := c.rows[i].marketId;
    && m in c.markets
    && (LastAcked(c.rows, t.acks, m) < i ==> MarketOf(c.rows[i]) != c.markets[m])
  }

  ghost predicate HistoryInv(cfg: CoreConfig, c: Core, t: Trace) {
    && |t.acks| == |c.rows|
    && t.firstSeen.Keys == c.markets.Keys
    && (forall m :: m in t.firstSeen ==> t.firstSeen[m] == FirstSeen(m, t.firstSeen[m].lastTransition))
    && (forall i :: 0 <= i < |c.rows| && t.acks[i] ==> i < c.lastSeq)
    && (forall m :: m in c.markets ==> MarketFollows(c, t, m))
    && (forall i: nat :: i < |c.rows| ==> RowDiffers(c, t, i))
    && (forall i: nat :: i < |c.rows| ==> RowFollows(cfg.breaker, c.rows, t, i))
  }

  // ---------- Preservation ----------

  function SeenNow(t: Trace, c: Core, m: string, now: int): Trace {
    if m in c.markets then t else t.(firstSeen := t.firstSeen[m := FirstSeen(m, now)])
  }

  /** The trace after one evaluation. */
  function TraceAttempt(cfg: CoreConfig, c: Core, t: Trace, now: int, choice: Choice): Trace {
    var seen := SeenNow(t, c, choice.marketId, now);
    var (after, sent) := Attempt(cfg, c, now, choice);
    if |after.rows| > |c.rows| then seen.(acks := seen.acks + [sent.Some?]) else seen
  }

  /** A market is first seen: no row is about it yet. */
  lemma SeeingKeepsHistory(cfg: CoreConfig, c: Core, t: Trace, m: string, now: int)
    requires HistoryInv(cfg, c, t)
    ensures HistoryInv(cfg, EnsureMarket(c, m, now), SeenNow(t, c, m, now))
  {
    if m !in c.markets {
      var c', t' := EnsureMarket(c, m, now), SeenNow(t, c, m, now);
      assert forall i: nat :: i < |c.rows| ==> RowDiffers(c, t, i);
      var last := LastAcked(c.rows, t.acks, m);
      assert last >= 0 ==> RowDiffers(c, t, last);
      forall k | k in c'.markets ensures MarketFollows(c', t', k) {
        assert k != m ==> MarketFollows(c, t, k);
      }
      forall i: nat | i < |c.rows| ensures RowDiffers(c', t', i) && RowFollows(cfg.breaker, c'.rows, t', i) {
        assert RowDiffers(c, t, i) && RowFollows(cfg.breaker, c.rows, t, i);
      }
    }
  }

  /** A row is appended about a market whose state differs from it; it is acknowledged exactly when the
      market then takes the row's payload. */
  ghost predicate Appends(cfg: CoreConfig, c: Core, t: Trace, evt: Event, ack: bool, c': Core, t': Trace) {
    && evt.marketId in c.markets
    && MarketOf(evt) != c.markets[evt.marketId]
    && BreakerStep(cfg.breaker, c.markets[evt.marketId], evt)
    && c'.rows == c.rows + [evt]
    && c'.markets == (if ack then c.markets[evt.marketId := MarketOf(evt)] else c.markets)
    && c.lastSeq <= c'.lastSeq
    && (ack ==> c'.lastSeq == |c'.rows|)
    && t' == t.(acks := t.acks + [ack])
  }

  lemma AppendKeepsRow(cfg: CoreConfig, c: Core, t: Trace, evt: Event, ack: bool, c': Core, t': Trace, i: nat)
    requires HistoryInv(cfg, c, t) && Appends(cfg, c, t, evt, ack, c', t') && i <= |c.rows|
    ensures RowFollows(cfg.breaker, c'.rows, t', i)
  {
    var m := c'.rows[i].marketId;
    assert c'.rows[..i] == c.rows[..i];
    LastAckedStable(c.rows[..i], t.acks, t'.acks, m);
    if i < |c.rows| {
      assert RowFollows(cfg.breaker, c.rows, t, i);
    } else {
      assert c.rows[..i] == c.rows;
      assert MarketFollows(c, t, m);
    }
  }

  lemma AppendKeepsMarket(cfg: CoreConfig, c: Core, t: Trace, evt: Event, ack: bool, c': Core, t': Trace, m: string)
    requires HistoryInv(cfg, c, t) && Appends(cfg, c, t, evt, ack, c', t') && m in c'.markets
    ensures MarketFollows(c', t', m)
  {
    LastAckedAppend(c.rows, t.acks, evt, ack, m);
    assert MarketFollows(c, t, m);
  }

  lemma AppendKeepsDifference(cfg: CoreConfig, c: Core, t: Trace, evt: Event, ack: bool, c': Core, t': Trace, i: nat)
    requires HistoryInv(cfg, c, t) && Appends(cfg, c, t, evt, ack, c', t') && i <= |c.rows|
    ensures RowDiffers(c', t', i)
  {
    LastAckedAppend(c.rows, t.acks, evt, ack, c'.rows[i].marketId);
    if i < |c.rows| {
      assert RowDiffers(c, t, i);
    }
  }

  lemma AppendKeepsRows(cfg: CoreConfig, c: Core, t: Trace, evt: Event, ack: bool, c': Core, t': Trace)
    requires HistoryInv(cfg, c, t) && Appends(cfg, c, t, evt, ack, c', t')
    ensures forall i: nat :: i < |c'.rows| ==> RowDiffers(c', t', i)
    ensures forall i: nat :: i < |c'.rows| ==> RowFollows(cfg.breaker, c'.rows, t', i)
  {
    forall i: nat | i < |c'.rows| ensures RowFollows(cfg.breaker, c'.rows, t', i) && RowDiffers(c', t', i) {
      AppendKeepsRow(cfg, c, t, evt, ack, c', t', i);
      AppendKeepsDifference(cfg, c, t, evt, ack, c', t', i);
    }
  }

  lemma AppendKeepsHistory(cfg: CoreConfig, c: Core, t: Trace, evt: Event, ack: bool, c': Core, t': Trace)
    requires HistoryInv(cfg, c, t) && Appends(cfg, c, t, evt, ack, c', t')
    ensures HistoryInv(cfg, c', t')
  {
    AppendKeepsRows(cfg, c, t, evt, ack, c', t');
    forall m | m in c'.markets ensures MarketFollows(c', t', m) {
      AppendKeepsMarket(cfg, c, t, evt, ack, c', t', m);
    }
  }

  /** A change of windows and sequence number alone. */
  lemma SameRowsKeepHistory(cfg: CoreConfig, c: Core, t: Trace, c': Core, t': Trace)
    requires HistoryInv(cfg, c, t)
    requires c'.rows == c.rows && c'.markets == c.markets && c.lastSeq <= c'.lastSeq
    requires t'.firstSeen == t.firstSeen && t'.acks == t.acks
    ensures HistoryInv(cfg, c', t')
  {
    forall m | m in c'.markets ensures MarketFollows(c', t', m) {
      assert MarketFollows(c, t, m);
    }
    forall i: nat | i < |c'.rows| ensures RowFollows(cfg.breaker, c'.rows, t', i) && RowDiffers(c', t', i) {
      assert RowFollows(cfg.breaker, c.rows, t, i) && RowDiffers(c, t, i);
    }
  }

  lemma NewEventFollows(cfg: CoreConfig, c: Core, now: int, choice: Choice)
    requires MarketsInv(c) && choice.marketId in c.markets
    ensures BreakerStep(cfg.breaker, c.markets[choice.marketId],
                        NewEvent(c, Decide(cfg, c, choice.marketId, now), choice))
  {
    var m := choice.marketId;
    BreakerTransitions(now, c.markets[m], Sum(Keep(WindowOf(c, m), now - cfg.window)), cfg.breaker);
  }

  lemma DecideSeen(cfg: CoreConfig, c: Core, m: string, now: int)
    ensures Decide(cfg, EnsureMarket(c, m, now), m, now) == Decide(cfg, c, m, now)
  {
  }

  /** An evaluation that stores a row appends it to the state the market was seen in. */
  lemma EvaluationAppends(cfg: CoreConfig, c: Core, t: Trace, now: int, choice: Choice)
    requires LogInv(c) && MarketsInv(c) && choice.marketId != "" && t.firstSeen.Keys == c.markets.Keys
    requires Attempt(cfg, c, now, choice).0.rows != c.rows
    ensures
      var m := choice.marketId;
      Appends(cfg, EnsureMarket(c, m, now), SeenNow(t, c, m, now), NewEvent(c, Decide(cfg, c, m, now), choice),
              Attempt(cfg, c, now, choice).1.Some?,
              EvaluateMarket(cfg, c, now, choice), TraceAttempt(cfg, c, t, now, choice))
  {
    var m := choice.marketId;
    AttemptStep(cfg, c, now, choice);
    DecideSeen(cfg, c, m, now);
    NewEventFollows(cfg, EnsureMarket(c, m, now), now, choice);
  }

  lemma EvaluateKeepsHistory(cfg: CoreConfig, c: Core, t: Trace, now: int, choice: Choice)
    requires LogInv(c) && MarketsInv(c) && HistoryInv(cfg, c, t) && choice.marketId != ""
    ensures HistoryInv(cfg, EvaluateMarket(cfg, c, now, choice), TraceAttempt(cfg, c, t, now, choice))
  {
    var m := choice.marketId;
    var seen, t1 := EnsureMarket(c, m, now), SeenNow(t, c, m, now);
    var c', t' := EvaluateMarket(cfg, c, now, choice), TraceAttempt(cfg, c, t, now, choice);
    SeeingKeepsHistory(cfg, c, t, m, now);
    var (after, sent) := Attempt(cfg, c, now, choice);
    if after.rows == c.rows {
      AttemptStep(cfg, c, now, choice);
      SameRowsKeepHistory(cfg, seen, t1, c', t');
    } else {
      EvaluationAppends(cfg, c, t, now, choice);
      AppendKeepsHistory(cfg, seen, t1, NewEvent(c, Decide(cfg, c, m, now), choice), sent.Some?, c', t');
    }
  }

  // ---------- Snapshots ----------

  /** What one market of a map taken at sequence number b owes to the log: it is the last acknowledged payload
      of the prefix, and it agrees with the prefix exactly when the prefix is clean about it. */
  predicate BaseFollows(rows: seq<Event>, t: Trace, base: map<string, MarketState>, b: nat, m: string)
    requires b <= |rows| && m in base
  {
    && m in t.firstSeen
    && base[m] == ValueAt(t.firstSeen[m], rows[..b], LastAcked(rows[..b], t.acks, m))
    && (base[m] == LogValue(t.firstSeen[m], rows, b, m) <==> Clean(rows, t.acks, b, m))
  }

  ghost predicate BaseInv(rows: seq<Event>, t: Trace, base: map<string, MarketState>, b: int) {
    && 0 <= b <= |rows|
    && (forall m :: m in base ==> BaseFollows(rows, t, base, b, m))
    && (forall i :: 0 <= i < b ==> rows[i].marketId in base)
  }

  /** Dropping a last row nobody acknowledged. */
  lemma LastAckedDrop(rows: seq<Event>, acks: seq<bool>, m: string)
    requires rows != [] && !Acked(acks, |rows| - 1)
    ensures LastAcked(rows[..|rows| - 1], acks, m) == LastAcked(rows, acks, m)
  {
  }

  /** The last row about a market against the last acknowledged one. */
  lemma LastAckedOrder(rows: seq<Event>, acks: seq<bool>, m: string)
    ensures
      var k, a := LastIndex(rows, m), LastAcked(rows, acks, m);
      a <= k && (a == k <==> k < 0 || Acked(acks, k))
  {
    var k, a := LastIndex(rows, m), LastAcked(rows, acks, m);
    if a >= 0 {
      assert rows[a].marketId == m;
    }
  }

  /** The settled state of a market, read off the acknowledged part of the log that snapshots are numbered by. */
  lemma MarketInPrefix(cfg: CoreConfig, c: Core, t: Trace, m: string)
    requires LogInv(c) && HistoryInv(cfg, c, t) && m in c.markets
    ensures LastAcked(c.rows[..c.lastSeq], t.acks, m) == LastAcked(c.rows, t.acks, m)
    ensures m in t.firstSeen
    ensures c.markets[m] == ValueAt(t.firstSeen[m], c.rows[..c.lastSeq], LastAcked(c.rows[..c.lastSeq], t.acks, m))
  {
    var b := c.lastSeq;
    assert MarketFollows(c, t, m);
    if b < |c.rows| {
      LastAckedDrop(c.rows, t.acks, m);
    } else {
      assert c.rows[..b] == c.rows;
    }
  }

  lemma UnackedDiffers(cfg: CoreConfig, c: Core, t: Trace, m: string, k: nat)
    requires LogInv(c) && HistoryInv(cfg, c, t) && m in c.markets
    requires k < c.lastSeq && c.rows[k].marketId == m && LastAcked(c.rows, t.acks, m) < k
    ensures MarketOf(c.rows[k]) != c.markets[m]
  {
    assert RowDiffers(c, t, k);
  }

  lemma SnapshotMarket(cfg: CoreConfig, c: Core, t: Trace, m: string)
    requires LogInv(c) && HistoryInv(cfg, c, t) && m in c.markets
    ensures BaseFollows(c.rows, t, c.markets, c.lastSeq, m)
  {
    var prefix := c.rows[..c.lastSeq];
    MarketInPrefix(cfg, c, t, m);
    LastAckedOrder(prefix, t.acks, m);
    var k := LastIndex(prefix, m);
    if LastAcked(prefix, t.acks, m) < k {
      assert prefix[k] == c.rows[k];
      UnackedDiffers(cfg, c, t, m, k);
    }
  }

  /** A snapshot agrees with the log it is numbered by exactly on the markets whose last row was reported
      as stored, under every fault pattern. */
  lemma SnapshotAgreement(cfg: CoreConfig, c: Core, t: Trace)
    requires LogInv(c) && HistoryInv(cfg, c, t)
    ensures BaseInv(c.rows, t, TakeSnapshot(c).markets, TakeSnapshot(c).lastSeq)
  {
    forall m | m in c.markets ensures BaseFollows(c.rows, t, c.markets, c.lastSeq, m) {
      SnapshotMarket(cfg, c, t, m);
    }
    forall i | 0 <= i < c.lastSeq ensures c.rows[i].marketId in c.markets {
      assert RowDiffers(c, t, i);
    }
  }

  // ---------- Signals ----------

  function SignalsOf(t: Trace, m: string): seq<SignalPoint> {
    if m in t.signals then t.signals[m] else []
  }

  function TraceIngest(cfg: CoreConfig, c: Core, t: Trace, marketId: string, point: SignalPoint, now: int): Trace {
    var m := Resolve(cfg, marketId);
    SeenNow(t, c, m, now).(signals := t.signals[m := SignalsOf(t, m) + [Stamp(point, now)]])
  }

  function TraceClear(cfg: CoreConfig, c: Core, t: Trace, marketId: string, now: int): Trace {
    var m := Resolve(cfg, marketId);
    SeenNow(t, c, m, now).(signals := t.signals[m := []])
  }

  /** Signals move windows and show markets; they never touch the log or a market that is already known. */
  lemma IngestStep(cfg: CoreConfig, c: Core, marketId: string, point: SignalPoint, now: int)
    requires LogInv(c) && MarketsInv(c) && cfg.defaultMarket != ""
    ensures
      var c' := Ingest(cfg, c, marketId, point, now);
      && LogInv(c') && MarketsInv(c') && c'.rows == c.rows && c'.lastSeq == c.lastSeq
      && c'.markets == EnsureMarket(c, Resolve(cfg, marketId), now).markets
  {
  }

  lemma ClearStep(cfg: CoreConfig, c: Core, marketId: string, now: int)
    requires LogInv(c) && MarketsInv(c) && cfg.defaultMarket != ""
    ensures
      var c' := Clear(cfg, c, marketId, now);
      && LogInv(c') && MarketsInv(c') && c'.rows == c.rows && c'.lastSeq == c.lastSeq
      && c'.markets == EnsureMarket(c, Resolve(cfg, marketId), now).markets
  {
  }

  /** Any operation that only shows a market and moves windows. */
  lemma SignalKeepsHistory(cfg: CoreConfig, c: Core, t: Trace, m: string, now: int, c': Core, t': Trace)
    requires HistoryInv(cfg, c, t)
    requires c'.rows == c.rows && c'.lastSeq == c.lastSeq && c'.markets == EnsureMarket(c, m, now).markets
    requires t'.firstSeen == SeenNow(t, c, m, now).firstSeen && t'.acks == t.acks
    ensures HistoryInv(cfg, c', t')
  {
    SeeingKeepsHistory(cfg, c, t, m, now);
    SameRowsKeepHistory(cfg, EnsureMarket(c, m, now), SeenNow(t, c, m, now), c', t');
  }

  // ---------- Growth ----------

  /** Traces and logs only grow: rows and acknowledgements are appended, first-seen states are never revised. */
  ghost predicate Grows(rows: seq<Event>, t: Trace, rows': seq<Event>, t': Trace) {
    && rows <= rows'
    && t.acks <= t'.acks
    && (forall m :: m in t.firstSeen ==> m in t'.firstSeen && t'.firstSeen[m] == t.firstSeen[m])
  }

  lemma BaseFollowsStable(rows: seq<Event>, t: Trace, rows': seq<Event>, t': Trace,
                          base: map<string, MarketState>, b: nat, m: string)
    requires Grows(rows, t, rows', t') && |rows| <= |t.acks|
    requires b <= |rows| && m in base && BaseFollows(rows, t, base, b, m)
    ensures BaseFollows(rows', t', base, b, m)
  {
    assert rows'[..b] == rows[..b];
    LastAckedStable(rows[..b], t.acks, t'.acks, m);
  }

  lemma BaseStable(rows: seq<Event>, t: Trace, rows': seq<Event>, t': Trace, base: map<string, MarketState>, b: int)
    requires Grows(rows, t, rows', t') && |rows| <= |t.acks|
    requires BaseInv(rows, t, base, b)
    ensures BaseInv(rows', t', base, b)
  {
    forall m | m in base ensures BaseFollows(rows', t', base, b, m) {
      BaseFollowsStable(rows, t, rows', t', base, b, m);
    }
  }
}
