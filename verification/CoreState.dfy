/** The core service's guarded state and its operations, as functions on values.
    Every operation below runs under the service mutex; the protocol module splits an emission further. */
module CoreState {
  import opened Domain
  import opened Breaker
  import opened SignalWindow
  import opened EventLog

  datatype CoreConfig = CoreConfig(breaker: BreakerConfig, window: int, defaultMarket: string)

  /** The durable rows together with the fields guarded by the mutex. */
  datatype Core = Core(
    rows: seq<Event>,
    lastSeq: int,
    markets: map<string, MarketState>,
    windows: map<string, seq<SignalPoint>>)

  /** What the outside world decides while one market is evaluated: which market comes next in the map
      iteration, the UUID, the clock, what the database does, and whether the resync read works. */
  datatype Choice = Choice(marketId: string, eventId: Uuid, ts: int, outcome: InsertOutcome, resync: bool)

  function FirstSeen(marketId: string, now: int): MarketState {
    MarketState(marketId, Open, 0, 0, 0, 0, NoReason, now)
  }

  function NewCore(cfg: CoreConfig, rows: seq<Event>, now: int): Core {
    Core(rows, MaxSeq(rows), map[cfg.defaultMarket := FirstSeen(cfg.defaultMarket, now)], map[])
  }

  function WindowOf(c: Core, marketId: string): seq<SignalPoint> {
    if marketId in c.windows then c.windows[marketId] else []
  }

  function EnsureMarket(c: Core, marketId: string, now: int): Core {
    if marketId in c.markets then c else c.(markets := c.markets[marketId := FirstSeen(marketId, now)])
  }

  function PruneMarket(cfg: CoreConfig, c: Core, marketId: string, now: int): Core {
    if WindowOf(c, marketId) == [] then c
    else c.(windows := c.windows[marketId := Keep(c.windows[marketId], now - cfg.window)])
  }

  function Resolve(cfg: CoreConfig, marketId: string): string {
    if marketId == "" then cfg.defaultMarket else marketId
  }

  /** A signal without a timestamp is stamped on arrival. */
  function Stamp(point: SignalPoint, now: int): SignalPoint {
    if point.ts == 0 then point.(ts := now) else point
  }

  function Ingest(cfg: CoreConfig, c: Core, marketId: string, point: SignalPoint, now: int): Core {
    var id := Resolve(cfg, marketId);
    var seen := EnsureMarket(c, id, now);
    var added := seen.(windows := seen.windows[id := WindowOf(seen, id) + [Stamp(point, now)]]);
    PruneMarket(cfg, added, id, now)
  }

  function Clear(cfg: CoreConfig, c: Core, marketId: string, now: int): Core {
    var id := Resolve(cfg, marketId);
    var seen := EnsureMarket(c, id, now);
    seen.(windows := seen.windows[id := []])
  }

  /** A market nobody has seen yet: open, all its numbers zero, its time the present. */
  predicate Fresh(market: MarketState, marketId: string, now: int) {
    && market.marketId == marketId && market.status == Open && market.lastReason == NoReason
    && market.betCount == 0 && market.stakeSum == 0 && market.liabilityDelta == 0
    && market.cooldownUntil == 0 && market.lastTransition == now
  }

  /** Nothing but one market, if it was unknown, and its window has changed. */
  predicate OnlyTouches(c: Core, c': Core, marketId: string, now: int) {
    && c'.rows == c.rows && c'.lastSeq == c.lastSeq
    && c'.markets.Keys == c.markets.Keys + {marketId}
    && (forall m <- c.markets.Keys :: c'.markets[m] == c.markets[m])
    && (marketId !in c.markets ==> Fresh(c'.markets[marketId], marketId, now))
    && c'.windows.Keys == c.windows.Keys + {marketId}
    && (forall m <- c.windows.Keys :: m != marketId ==> c'.windows[m] == c.windows[m])
  }

  /** A signal enters the window of the market it names, or of the default market if it names none: the market is
      known afterwards, the point is stamped with the present if it has no time and is otherwise as it came, and the
      window is the old one with that point behind it, without what is older than the window is wide. No other
      window, no market that was known and no row changes. */
  lemma IngestCases(cfg: CoreConfig, c: Core, marketId: string, point: SignalPoint, now: int)
    ensures
      var id := if marketId != "" then marketId else cfg.defaultMarket;
      var stamped := SignalPoint(if point.ts == 0 then now else point.ts, point.betCount, point.stake, point.liability);
      var before := if id in c.windows then c.windows[id] else [];
      var c' := Ingest(cfg, c, marketId, point, now);
      && OnlyTouches(c, c', id, now)
      && c'.windows[id] == Keep(before + [stamped], now - cfg.window)
  {
  }

  /** A clear empties the window of the market it names, or of the default market, and changes nothing else. */
  lemma ClearCases(cfg: CoreConfig, c: Core, marketId: string, now: int)
    ensures
      var id := if marketId != "" then marketId else cfg.defaultMarket;
      var c' := Clear(cfg, c, marketId, now);
      && OnlyTouches(c, c', id, now)
      && c'.windows[id] == []
  {
  }

  /** A core that starts knows its default market, has no signals, and goes on from the last row of its log. */
  lemma NewCoreCases(cfg: CoreConfig, rows: seq<Event>, now: int)
    ensures
      var c := NewCore(cfg, rows, now);
      && c.rows == rows && c.windows == map[]
      && c.lastSeq == (if rows == [] then 0 else rows[|rows| - 1].seqNo)
      && c.markets.Keys == {cfg.defaultMarket}
      && Fresh(c.markets[cfg.defaultMarket], cfg.defaultMarket, now)
  {
  }

  function TakeSnapshot(c: Core): Snapshot {
    Snapshot(c.lastSeq, c.markets)
  }

  /** The breaker's verdict on a market, from the state it has or would be given, over its pruned window. */
  function Decide(cfg: CoreConfig, c: Core, marketId: string, now: int): Verdict {
    var prev := if marketId in c.markets then c.markets[marketId] else FirstSeen(marketId, now);
    ApplyBreaker(now, prev, Sum(Keep(WindowOf(c, marketId), now - cfg.window)), cfg.breaker)
  }

  function NewEvent(c: Core, verdict: Verdict, choice: Choice): Event {
    Event(c.lastSeq + 1, choice.eventId, choice.ts, PublishedKind(verdict), choice.marketId, Decoded(verdict.next))
  }

  /** Assign the next sequence number and persist; a failure rolls the number back and resyncs it. */
  function Emit(c: Core, evt: Event, choice: Choice): (Core, Option<Event>) {
    var (rows, ok) := TableInsert(c.rows, evt, choice.outcome);
    if ok then
      (c.(rows := rows, lastSeq := evt.seqNo), Some(evt))
    else
      (c.(rows := rows, lastSeq := if choice.resync then MaxSeq(rows) else c.lastSeq), None)
  }

  function Prepare(cfg: CoreConfig, c: Core, marketId: string, now: int): Core {
    PruneMarket(cfg, EnsureMarket(c, marketId, now), marketId, now)
  }

  /** Evaluation of one market up to the point where an event, if any, is persisted but not yet broadcast. */
  function Attempt(cfg: CoreConfig, c: Core, now: int, choice: Choice): (Core, Option<Event>) {
    var m := choice.marketId;
    var ready := Prepare(cfg, c, m, now);
    var verdict := Decide(cfg, c, m, now);
    if ready.markets[m].IsEqual(verdict.next) then
      (ready, None)
    else
      Emit(ready, NewEvent(c, verdict, choice), choice)
  }

  /** The assignment that follows a successful emission. */
  function Assign(c: Core, evt: Event): Core {
    c.(markets := c.markets[evt.marketId := MarketOf(evt)])
  }

  function EvaluateMarket(cfg: CoreConfig, c: Core, now: int, choice: Choice): Core {
    match Attempt(cfg, c, now, choice)
    case (after, Some(evt)) => Assign(after, evt)
    case (after, None) => after
  }

  function RunTick(cfg: CoreConfig, c: Core, now: int, plan: seq<Choice>): Core {
    if plan == [] then c
    else EvaluateMarket(cfg, RunTick(cfg, c, now, plan[..|plan| - 1]), now, plan[|plan| - 1])
  }

  /** The event an evaluation hands to the hub, if any. */
  function Sent(cfg: CoreConfig, c: Core, now: int, choice: Choice): seq<Event> {
    match Attempt(cfg, c, now, choice).1
    case Some(evt) => [evt]
    case None => []
  }

  /** The events a tick hands to the hub, in order. */
  function Announcements(cfg: CoreConfig, c: Core, now: int, plan: seq<Choice>): seq<Event> {
    if plan == [] then []
    else
      var init := plan[..|plan| - 1];
      Announcements(cfg, c, now, init) + Sent(cfg, RunTick(cfg, c, now, init), now, plan[|plan| - 1])
  }

  /** The second half of an evaluation: emit if the verdict differs from the market, and assign if that succeeds. */
  function Conclude(ready: Core, verdict: Verdict, choice: Choice): (Core, seq<Event>)
    requires choice.marketId in ready.markets
  {
    if ready.markets[choice.marketId] == verdict.next then (ready, [])
    else
      var evt := NewEvent(ready, verdict, choice);
      match Emit(ready, evt, choice)
      case (after, Some(_)) => (after.(markets := after.markets[choice.marketId := verdict.next]), [evt])
      case (after, None) => (after, [])
  }

  lemma PrepareKeepsNumber(cfg: CoreConfig, c: Core, m: string, now: int)
    ensures Prepare(cfg, c, m, now).lastSeq == c.lastSeq && m in Prepare(cfg, c, m, now).markets
  {
  }

  /** What an emission, given as its result, leaves to assign. */
  lemma ConcludeEmit(ready: Core, verdict: Verdict, choice: Choice, after: Core, sent: Option<Event>)
    requires choice.marketId in ready.markets && ready.markets[choice.marketId] != verdict.next
    requires (after, sent) == Emit(ready, NewEvent(ready, verdict, choice), choice)
    ensures
      Conclude(ready, verdict, choice) ==
        match sent
        case Some(evt) => (Assign(after, evt), [evt])
        case None => (after, [])
  {
  }

  /** An evaluation is its two halves. */
  lemma EvaluationHalves(cfg: CoreConfig, c: Core, now: int, choice: Choice)
    ensures
      var m := choice.marketId;
      Conclude(Prepare(cfg, c, m, now), Decide(cfg, c, m, now), choice) ==
        (EvaluateMarket(cfg, c, now, choice), Sent(cfg, c, now, choice))
  {
    var ready, verdict := Prepare(cfg, c, choice.marketId, now), Decide(cfg, c, choice.marketId, now);
    var (after, sent) := Attempt(cfg, c, now, choice);
    PrepareKeepsNumber(cfg, c, choice.marketId, now);
    if ready.markets[choice.marketId] != verdict.next {
      ConcludeEmit(ready, verdict, choice, after, sent);
    }
  }

  lemma TickAppend(cfg: CoreConfig, c: Core, now: int, plan: seq<Choice>, choice: Choice)
    ensures RunTick(cfg, c, now, plan + [choice]) == EvaluateMarket(cfg, RunTick(cfg, c, now, plan), now, choice)
    ensures Announcements(cfg, c, now, plan + [choice]) ==
            Announcements(cfg, c, now, plan) + Sent(cfg, RunTick(cfg, c, now, plan), now, choice)
  {
    assert (plan + [choice])[..|plan|] == plan;
  }

  function MarketIds(c: Core): set<string> {
    c.markets.Keys + c.windows.Keys
  }

  /** A tick visits each id once, in whatever order the map iteration gives. */
  ghost predicate Visits(plan: seq<Choice>, ids: set<string>) {
    && (forall i :: 0 <= i < |plan| ==> plan[i].marketId in ids)
    && (forall id :: id in ids ==> exists i :: 0 <= i < |plan| && plan[i].marketId == id)
    && (forall i, j :: 0 <= i < j < |plan| ==> plan[i].marketId != plan[j].marketId)
  }

  // ---------- The log between emissions ----------

  /** lastSeq is the log length, or one behind it while a stored-but-failed row waits for a resync. */
  ghost predicate LogInv(c: Core) {
    && GapFree(c.rows)
    && DistinctIds(c.rows)
    && 0 <= c.lastSeq
    && |c.rows| - 1 <= c.lastSeq <= |c.rows|
  }

  lemma NoClashAppends(rows: seq<Event>, evt: Event)
    requires GapFree(rows) && DistinctIds(rows)
    ensures !Clashes(rows, evt) && evt.seqNo == |rows| + 1 ==> InsertOrdered(rows, evt) == rows + [evt]
    ensures 1 <= evt.seqNo <= |rows| ==> Clashes(rows, evt)
    ensures GapFree(rows) ==> MaxSeq(rows) == |rows|
  {
    if 1 <= evt.seqNo <= |rows| {
      assert rows[evt.seqNo - 1].seqNo == evt.seqNo;
    }
  }

  /** An emission appends its one event or leaves the log alone, under every fault, and the log stays 1..n. */
  lemma EmitKeepsLog(c: Core, evt: Event, choice: Choice)
    requires LogInv(c) && evt.seqNo == c.lastSeq + 1
    ensures
      var (after, sent) := Emit(c, evt, choice);
      && LogInv(after)
      && after.markets == c.markets && after.windows == c.windows
      && (after.rows == c.rows || after.rows == c.rows + [evt])
      && (sent.Some? ==> sent.value == evt && after.rows == c.rows + [evt])
      && (sent.Some? || choice.resync ==> after.lastSeq == |after.rows|)
      && c.lastSeq <= after.lastSeq
      && (after.rows != c.rows ==> c.lastSeq == |c.rows|)
      && (sent.None? && after.rows != c.rows ==> choice.outcome == FailsStored)
      && (c.lastSeq < |c.rows| ==> sent.None? && after.rows == c.rows)
      && (c.lastSeq == |c.rows| && choice.outcome == Succeeds && evt.id !in (set i | 0 <= i < |c.rows| :: c.rows[i].id)
          ==> sent.Some?)
  {
    NoClashAppends(c.rows, evt);
    var (rows, ok) := TableInsert(c.rows, evt, choice.outcome);
    if !Clashes(c.rows, evt) {
      assert evt.seqNo == |c.rows| + 1;
    }
    NoClashAppends(rows, evt);
  }

  /** Where the log claim needs nothing but a gap-free start, restarts over an old log included. */
  lemma NewCoreLog(cfg: CoreConfig, rows: seq<Event>, now: int)
    requires GapFree(rows) && DistinctIds(rows)
    ensures LogInv(NewCore(cfg, rows, now)) && NewCore(cfg, rows, now).lastSeq == |rows|
  {
  }

  // ---------- The markets map ----------

  ghost predicate MarketsInv(c: Core) {
    && (forall m :: m in c.markets ==> m != "" && c.markets[m].marketId == m && KnownStatus(c.markets[m].status))
    && c.windows.Keys <= c.markets.Keys
    && (forall i :: 0 <= i < |c.rows| ==> WellFormed(c.rows[i]))
  }

  lemma PrepareStep(cfg: CoreConfig, c: Core, m: string, now: int)
    requires LogInv(c) && MarketsInv(c) && m != ""
    ensures
      var ready := Prepare(cfg, c, m, now);
      && LogInv(ready) && MarketsInv(ready)
      && ready.rows == c.rows && ready.lastSeq == c.lastSeq
      && ready.markets == EnsureMarket(c, m, now).markets
      && ready.windows == PruneMarket(cfg, c, m, now).windows
      && m in ready.markets
  {
  }

  lemma NewEventWellFormed(cfg: CoreConfig, c: Core, now: int, choice: Choice)
    requires LogInv(c) && MarketsInv(c) && choice.marketId != ""
    ensures WellFormed(NewEvent(c, Decide(cfg, c, choice.marketId, now), choice))
  {
    var m := choice.marketId;
    var prev := if m in c.markets then c.markets[m] else FirstSeen(m, now);
    BreakerTransitions(now, prev, Sum(Keep(WindowOf(c, m), now - cfg.window)), cfg.breaker);
  }

  /** Exactly when an emission fails, what it stores when it does, and where that leaves lastSeq: a failure moves it if
      and only if the resync read works and finds a row it did not count, be it this one or one from before. */
  lemma FailedEmit(c: Core, evt: Event, choice: Choice)
    requires LogInv(c) && evt.seqNo == c.lastSeq + 1
    ensures
      var (after, sent) := Emit(c, evt, choice);
      var stores := choice.outcome == FailsStored && !Clashes(c.rows, evt);
      && (sent.None? <==> Clashes(c.rows, evt) || choice.outcome != Succeeds)
      && (c.lastSeq < |c.rows| ==> Clashes(c.rows, evt))
      && after.markets == c.markets
      && (sent.None? ==>
          && after.rows == (if stores then c.rows + [evt] else c.rows)
          && (after.lastSeq != c.lastSeq <==> choice.resync && (c.lastSeq < |c.rows| || stores))
          && c.lastSeq <= after.lastSeq <= c.lastSeq + 1)
  {
    NoClashAppends(c.rows, evt);
    EmitKeepsLog(c, evt, choice);
    if c.lastSeq < |c.rows| {
      assert c.rows[c.lastSeq].seqNo == evt.seqNo;
    }
  }

  /** What one evaluation does, whatever happens to its insert. */
  lemma AttemptStep(cfg: CoreConfig, c: Core, now: int, choice: Choice)
    requires LogInv(c) && MarketsInv(c) && choice.marketId != ""
    ensures
      var m := choice.marketId;
      var (after, sent) := Attempt(cfg, c, now, choice);
      var verdict := Decide(cfg, c, m, now);
      var evt := NewEvent(c, verdict, choice);
      && LogInv(after) && MarketsInv(after)
      && WellFormed(evt)
      && after.markets == EnsureMarket(c, m, now).markets
      && after.windows == PruneMarket(cfg, c, m, now).windows
      && m in after.markets
      && c.lastSeq <= after.lastSeq
      && (after.rows == c.rows || after.rows == c.rows + [evt])
      && (sent.Some? ==> sent.value == evt && after.rows == c.rows + [evt] && after.lastSeq == |after.rows|)
      && (after.rows != c.rows ==> after.markets[m] != verdict.next && c.lastSeq == |c.rows|)
      && (sent.None? && after.rows != c.rows ==> choice.outcome == FailsStored)
      && (after.markets[m] == verdict.next ==> sent.None? && after.lastSeq == c.lastSeq)
  {
    var m := choice.marketId;
    var ready := Prepare(cfg, c, m, now);
    PrepareStep(cfg, c, m, now);
    NewEventWellFormed(cfg, c, now, choice);
    var verdict := Decide(cfg, c, m, now);
    var evt := NewEvent(c, verdict, choice);
    if ready.markets[m].IsEqual(verdict.next) {
    } else {
      EmitKeepsLog(ready, evt, choice);
      var (after, sent) := Emit(ready, evt, choice);
      assert after.markets == ready.markets;
    }
  }
}
