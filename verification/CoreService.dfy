/** The core service object. Each method holds the service mutex for its whole body and is proved against the
    functions of CoreState, for whatever the clock, the id generator and the database have in store for it. */
module CoreService {
  import opened Domain
  import opened Breaker
  import opened SignalWindow
  import opened EventLog
  import opened CoreState
  import opened Hub

  const DEFAULT_WINDOW := 30_000
  const DEFAULT_MARKET := "market-news-001"

  function Normalize(cfg: CoreConfig): (result: CoreConfig)
    ensures result.defaultMarket != "" && result.window != 0 && result.breaker.betCountThreshold != 0
    ensures cfg.breaker.betCountThreshold != 0 ==> result.breaker == cfg.breaker
    ensures cfg.breaker.betCountThreshold == 0 ==> result.breaker == BreakerConfig(120, 2_000_000, 60_000)
    ensures result.window == cfg.window || (cfg.window == 0 && result.window == 30_000)
    ensures result.defaultMarket == cfg.defaultMarket ||
            (cfg.defaultMarket == "" && result.defaultMarket == "market-news-001")
  {
    CoreConfig(
      if cfg.breaker.betCountThreshold == 0 then DEFAULT_BREAKER_CONFIG else cfg.breaker,
      if cfg.window == 0 then DEFAULT_WINDOW else cfg.window,
      if cfg.defaultMarket == "" then DEFAULT_MARKET else cfg.defaultMarket)
  }

  class Service {
    const cfg: CoreConfig
    const store: EventStore
    const hub: SSEHub
    var lastSeq: int
    var markets: map<string, MarketState>
    var signalWindow: map<string, seq<SignalPoint>>

    ghost function State(): Core
      reads this, store
    {
      Core(store.rows, lastSeq, markets, signalWindow)
    }

    ghost predicate Valid()
      reads this, store, hub, hub.channels
    {
      store.Valid() && hub.Valid()
    }

    constructor (store: EventStore, cfg: CoreConfig, now: int, lastSeq: int)
      requires store.Valid() && lastSeq == MaxSeq(store.rows)
      ensures Valid() && fresh(hub) && this.store == store && this.cfg == Normalize(cfg)
      ensures State() == NewCore(Normalize(cfg), store.rows, now)
    {
      var normalized := Normalize(cfg);
      this.store := store;
      this.cfg := normalized;
      this.hub := new SSEHub();
      this.lastSeq := lastSeq;
      this.markets := map[normalized.defaultMarket := FirstSeen(normalized.defaultMarket, now)];
      this.signalWindow := map[];
    }

    method EnsureMarketExists(marketId: string, now: int)
      modifies this`markets
      ensures State() == EnsureMarket(old(State()), marketId, now)
    {
      if marketId !in markets {
        markets := markets[marketId := MarketState(marketId, Open, 0, 0, 0, 0, NoReason, now)];
      }
    }

    method PruneSignals(marketId: string, now: int)
      modifies this`signalWindow
      ensures State() == PruneMarket(cfg, old(State()), marketId, now)
    {
      var points := if marketId in signalWindow then signalWindow[marketId] else [];
      if |points| == 0 {
        return;
      }
      var cutoff := now - cfg.window;
      var filtered: seq<SignalPoint> := [];
      for i := 0 to |points|
        invariant filtered == Keep(points[..i], cutoff)
      {
        assert points[..i + 1][..i] == points[..i];
        if points[i].ts >= cutoff {
          filtered := filtered + [points[i]];
        }
      }
      assert points[..|points|] == points;
      signalWindow := signalWindow[marketId := filtered];
    }

    method Metrics(marketId: string) returns (out: WindowMetrics)
      ensures out == Sum(WindowOf(State(), marketId))
    {
      var points := if marketId in signalWindow then signalWindow[marketId] else [];
      out := WindowMetrics(0, 0, 0);
      for i := 0 to |points|
        invariant out == Sum(points[..i])
      {
        assert points[..i + 1][..i] == points[..i];
        out := WindowMetrics(out.betCount + points[i].betCount,
                             out.stakeSum + points[i].stake,
                             out.liabilityDelta + points[i].liability);
      }
      assert points[..|points|] == points;
    }

    method IngestSignal(marketId: string, point: SignalPoint, now: int)
      modifies this`markets, this`signalWindow
      ensures State() == Ingest(cfg, old(State()), marketId, point, now)
    {
      var stamped := if point.ts == 0 then point.(ts := now) else point;
      var id := if marketId == "" then cfg.defaultMarket else marketId;
      EnsureMarketExists(id, now);
      var points := if id in signalWindow then signalWindow[id] else [];
      signalWindow := signalWindow[id := points + [stamped]];
      PruneSignals(id, now);
    }

    method ClearSignals(marketId: string, now: int)
      modifies this`markets, this`signalWindow
      ensures State() == Clear(cfg, old(State()), marketId, now)
    {
      var id := if marketId == "" then cfg.defaultMarket else marketId;
      EnsureMarketExists(id, now);
      signalWindow := signalWindow[id := []];
    }

    method GetSnapshot() returns (snapshot: Snapshot)
      ensures snapshot == TakeSnapshot(State())
    {
      snapshot := Snapshot(lastSeq, markets);
    }

    /** Persist, then broadcast; a failed insert rolls lastSeq back and resyncs it if the log can be read. */
    method EmitEvent(kind: EventType, state: MarketState, choice: Choice) returns (ok: bool)
      requires Valid()
      modifies this`lastSeq, store, hub, hub.channels
      ensures Valid() && hub.channels == old(hub.channels)
      ensures
        var evt := Event(old(lastSeq) + 1, choice.eventId, choice.ts, kind, choice.marketId, Decoded(state));
        && (State(), if ok then Some(evt) else None) == Emit(old(State()), evt, choice)
        && hub.Seen() == Broadcasts(old(hub.Seen()), if ok then [evt] else [])
    {
      ghost var start, before := State(), hub.Seen();
      var evt := Event(lastSeq + 1, choice.eventId, choice.ts, kind, choice.marketId, Decoded(state));
      ok := Persist(evt, choice);
      ghost var after := State();
      assert (after, if ok then Some(evt) else None) == Emit(start, evt, choice);
      assert hub.Seen() == before;
      BroadcastsNone(before);
      if ok {
        hub.Broadcast(evt);
        assert State() == after;
      }
    }

    /** The part of an emission that precedes the broadcast: a failed insert rolls lastSeq back, and resyncs it if
        the log can be read. */
    method Persist(evt: Event, choice: Choice) returns (ok: bool)
      requires store.Valid() && evt.seqNo == lastSeq + 1
      modifies this`lastSeq, store
      ensures store.Valid()
      ensures
        var (rows, done) := TableInsert(old(store.rows), evt, choice.outcome);
        && store.rows == rows && ok == done
        && lastSeq == if done then evt.seqNo else if choice.resync then MaxSeq(rows) else old(lastSeq)
    {
      var prevSeq := lastSeq;
      lastSeq := lastSeq + 1;
      ok := store.Insert(evt, choice.outcome);
      if !ok {
        lastSeq := prevSeq;
        var last := store.LastSeq(choice.resync);
        if last.Some? {
          lastSeq := last.value;
        }
      }
    }

    /** The first half of an iteration: make the market exist, prune, sum, and ask the breaker. */
    method Measure(marketId: string, now: int) returns (prev: MarketState, verdict: Verdict)
      modifies this`markets, this`signalWindow
      ensures State() == Prepare(cfg, old(State()), marketId, now)
      ensures marketId in markets && prev == markets[marketId]
      ensures verdict == Decide(cfg, old(State()), marketId, now)
    {
      EnsureMarketExists(marketId, now);
      PruneSignals(marketId, now);
      var metrics := Metrics(marketId);
      prev := markets[marketId];
      verdict := ApplyBreaker(now, prev, metrics, cfg.breaker);
    }

    /** One iteration of a tick, with what the world has in store for it. */
    method Evaluate(choice: Choice, now: int)
      requires Valid()
      modifies this, store, hub, hub.channels
      ensures Valid() && hub.channels == old(hub.channels)
      ensures State() == EvaluateMarket(cfg, old(State()), now, choice)
      ensures hub.Seen() == Broadcasts(old(hub.Seen()), Sent(cfg, old(State()), now, choice))
    {
      ghost var start, before := State(), hub.Seen();
      var prev, verdict := Measure(choice.marketId, now);
      assert hub.Seen() == before;
      EmitChange(prev, verdict, choice);
      EvaluationHalves(cfg, start, now, choice);
    }

    /** The second half of an iteration. */
    method EmitChange(prev: MarketState, verdict: Verdict, choice: Choice)
      requires Valid() && choice.marketId in markets && prev == markets[choice.marketId]
      modifies this`lastSeq, this`markets, store, hub, hub.channels
      ensures Valid() && hub.channels == old(hub.channels)
      ensures State() == Conclude(old(State()), verdict, choice).0
      ensures hub.Seen() == Broadcasts(old(hub.Seen()), Conclude(old(State()), verdict, choice).1)
    {
      ghost var ready, before := State(), hub.Seen();
      BroadcastsNone(before);
      if prev.IsEqual(verdict.next) {
        return;
      }
      var kind := if verdict.transitioned then verdict.kind else MarketUpdated;
      var ok := EmitEvent(kind, verdict.next, choice);
      ghost var after, seen := State(), hub.Seen();
      ghost var evt := NewEvent(ready, verdict, choice);
      assert (after, if ok then Some(evt) else None) == Emit(ready, evt, choice);
      assert seen == Broadcasts(before, if ok then [evt] else []);
      Concluded(ready, verdict, choice, after, ok);
      if ok {
        markets := markets[choice.marketId := verdict.next];
        assert hub.Seen() == seen;
      }
    }

    /** One more iteration of a tick that began in start and has carried out a plan. */
    method EvaluateNext(choice: Choice, now: int, ghost start: Core, ghost plan: seq<Choice>, ghost before: Traffic)
      requires Valid()
      requires State() == RunTick(cfg, start, now, plan)
      requires hub.Seen() == Broadcasts(before, Announcements(cfg, start, now, plan))
      modifies this, store, hub, hub.channels
      ensures Valid() && hub.channels == old(hub.channels)
      ensures State() == RunTick(cfg, start, now, plan + [choice])
      ensures hub.Seen() == Broadcasts(before, Announcements(cfg, start, now, plan + [choice]))
    {
      ghost var mid := State();
      Evaluate(choice, now);
      TickAppend(cfg, start, now, plan, choice);
      BroadcastsMore(before, Announcements(cfg, start, now, plan), Sent(cfg, mid, now, choice));
    }

    /** A tick visits every known market once, in an arbitrary order, and each meets what the world has in store for
        it: an id, a clock reading, what the database does. The plan records the order; the tick does what RunTick
        says for it, broadcasting exactly the events whose inserts were reported as done, in order. */
    method EvaluateAll(now: int, world: string -> Choice) returns (ghost plan: seq<Choice>)
      requires Valid() && forall m :: world(m).marketId == m
      modifies this, store, hub, hub.channels
      ensures Valid() && hub.channels == old(hub.channels)
      ensures Visits(plan, old(markets.Keys + signalWindow.Keys))
      ensures forall i :: 0 <= i < |plan| ==> plan[i] == world(plan[i].marketId)
      ensures State() == RunTick(cfg, old(State()), now, plan)
      ensures hub.Seen() == Broadcasts(old(hub.Seen()), Announcements(cfg, old(State()), now, plan))
    {
      ghost var start, before := State(), hub.Seen();
      BroadcastsNone(before);
      var remaining := markets.Keys + signalWindow.Keys;
      plan := [];
      while remaining != {}
        invariant Valid() && hub.channels == old(hub.channels)
        invariant Underway(start, plan, remaining, world)
        invariant State() == RunTick(cfg, start, now, plan)
        invariant hub.Seen() == Broadcasts(before, Announcements(cfg, start, now, plan))
        decreases remaining
      {
        var id :| id in remaining;
        EvaluateNext(world(id), now, start, plan, before);
        UnderwayMore(start, plan, remaining, world, id);
        remaining := remaining - {id};
        plan := plan + [world(id)];
      }
      assert start.markets.Keys + start.windows.Keys - {} == start.markets.Keys + start.windows.Keys;
    }
  }

  lemma Concluded(ready: Core, verdict: Verdict, choice: Choice, after: Core, ok: bool)
    requires choice.marketId in ready.markets && ready.markets[choice.marketId] != verdict.next
    requires
      var evt := NewEvent(ready, verdict, choice);
      (after, if ok then Some(evt) else None) == Emit(ready, evt, choice)
    ensures Conclude(ready, verdict, choice) ==
            if ok then
              (after.(markets := after.markets[choice.marketId := verdict.next]), [NewEvent(ready, verdict, choice)])
            else (after, [])
  {
  }

  /** Construction fails when the log cannot be read; otherwise the sequence resumes from it. */
  method NewService(store: EventStore, cfg: CoreConfig, now: int, readable: bool) returns (svc: Service?)
    requires store.Valid()
    ensures svc == null <==> !readable
    ensures svc != null ==>
              && fresh(svc) && fresh(svc.hub) && svc.Valid() && svc.store == store
              && svc.cfg == Normalize(cfg) && svc.State() == NewCore(Normalize(cfg), store.rows, now)
  {
    var lastSeq := store.LastSeq(readable);
    if lastSeq.None? {
      return null;
    }
    svc := new Service(store, cfg, now, lastSeq.value);
  }

  /** A tick that has visited all but the remaining markets. */
  ghost predicate Underway(start: Core, plan: seq<Choice>, remaining: set<string>, world: string -> Choice) {
    var ids := start.markets.Keys + start.windows.Keys;
    && remaining <= ids && Visits(plan, ids - remaining)
    && (forall i :: 0 <= i < |plan| ==> plan[i] == world(plan[i].marketId))
  }

  lemma UnderwayMore(start: Core, plan: seq<Choice>, remaining: set<string>, world: string -> Choice, id: string)
    requires Underway(start, plan, remaining, world) && id in remaining && world(id).marketId == id
    ensures Underway(start, plan + [world(id)], remaining - {id}, world)
  {
    var choice := world(id);
    var ids := start.markets.Keys + start.windows.Keys;
    VisitsMore(plan, ids - remaining, choice);
    assert ids - (remaining - {choice.marketId}) == ids - remaining + {choice.marketId};
  }

  lemma VisitsMore(plan: seq<Choice>, done: set<string>, choice: Choice)
    requires Visits(plan, done) && choice.marketId !in done
    ensures Visits(plan + [choice], done + {choice.marketId})
  {
    var longer := plan + [choice];
    forall id | id in done + {choice.marketId} ensures exists i :: 0 <= i < |longer| && longer[i].marketId == id {
      if id in done {
        var i :| 0 <= i < |plan| && plan[i].marketId == id;
        assert longer[i].marketId == id;
      } else {
        assert longer[|plan|].marketId == id;
      }
    }
  }
}
