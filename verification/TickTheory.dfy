/** What a whole tick does, for every iteration order. */
module TickTheory {
  import opened Domain
  import opened Breaker
  import opened SignalWindow
  import opened EventLog
  import opened CoreState

  function Before(c: Core, m: string, now: int): MarketState {
    if m in c.markets then c.markets[m] else FirstSeen(m, now)
  }

  predicate Changes(cfg: CoreConfig, c: Core, m: string, now: int) {
    Before(c, m, now) != Decide(cfg, c, m, now).next
  }

  ghost predicate Visited(plan: seq<Choice>, m: string) {
    exists i :: 0 <= i < |plan| && plan[i].marketId == m
  }

  /** Each market at most once, no market without a name. */
  ghost predicate VisitsOnce(plan: seq<Choice>) {
    && (forall i :: 0 <= i < |plan| ==> plan[i].marketId != "")
    && (forall i, j :: 0 <= i < j < |plan| ==> plan[i].marketId != plan[j].marketId)
  }

  /** Every insert of the tick goes through: the database accepts it and no event id is taken. */
  ghost predicate Accepts(c: Core, plan: seq<Choice>) {
    && c.lastSeq == |c.rows|
    && (forall i :: 0 <= i < |plan| ==> plan[i].outcome == Succeeds)
    && (forall i, j :: 0 <= i < j < |plan| ==> plan[i].eventId != plan[j].eventId)
    && (forall i, k :: 0 <= i < |plan| && 0 <= k < |c.rows| ==> plan[i].eventId != c.rows[k].id)
  }

  /** One market of a finished tick against the state before it: settled if it was visited, untouched if not. */
  ghost predicate Settled(cfg: CoreConfig, c: Core, now: int, plan: seq<Choice>, after: Core, m: string) {
    if Visited(plan, m) then
      && m in after.markets && after.markets[m] == Decide(cfg, c, m, now).next
      && WindowOf(after, m) == Keep(WindowOf(c, m), now - cfg.window)
    else
      && (m in after.markets <==> m in c.markets)
      && (m in c.markets ==> after.markets[m] == c.markets[m])
      && WindowOf(after, m) == WindowOf(c, m)
  }

  /** One announced event: a visited market that changes, with the type and payload the state before decides. */
  ghost predicate Announces(cfg: CoreConfig, c: Core, now: int, plan: seq<Choice>, evt: Event) {
    var m := evt.marketId;
    && Visited(plan, m) && Changes(cfg, c, m, now)
    && evt.kind == PublishedKind(Decide(cfg, c, m, now))
    && evt.payload == Decoded(Decide(cfg, c, m, now).next)
  }

  /** The event carries the id and the clock reading its market met. */
  ghost predicate StampedFrom(plan: seq<Choice>, evt: Event) {
    exists j :: 0 <= j < |plan| && evt.marketId == plan[j].marketId && evt.id == plan[j].eventId && evt.ts == plan[j].ts
  }

  ghost predicate Mentions(sent: seq<Event>, m: string) {
    exists i :: 0 <= i < |sent| && sent[i].marketId == m
  }

  /** The events of part of a tick: one for each visited market that changes, and nothing else. */
  ghost predicate SentByTick(cfg: CoreConfig, c: Core, now: int, plan: seq<Choice>, sent: seq<Event>) {
    && (forall i :: 0 <= i < |sent| ==> Announces(cfg, c, now, plan, sent[i]))
    && (forall i :: 0 <= i < |sent| ==> StampedFrom(plan, sent[i]))
    && (forall i, j :: 0 <= i < j < |sent| ==> sent[i].marketId != sent[j].marketId)
    && (forall m :: Visited(plan, m) && Changes(cfg, c, m, now) ==> Mentions(sent, m))
  }

  ghost predicate LogSettled(cfg: CoreConfig, c: Core, now: int, plan: seq<Choice>, after: Core, sent: seq<Event>) {
    && after.rows == c.rows + sent
    && after.lastSeq == |after.rows|
    && after.windows.Keys == c.windows.Keys
    && SentByTick(cfg, c, now, plan, sent)
  }

  /** An accepted insert of a market that changes. */
  lemma AttemptSucceeds(cfg: CoreConfig, c: Core, now: int, choice: Choice)
    requires LogInv(c) && MarketsInv(c) && choice.marketId != "" && Accepts(c, [choice])
    ensures
      var (after, sent) := Attempt(cfg, c, now, choice);
      var evt := NewEvent(c, Decide(cfg, c, choice.marketId, now), choice);
      && after.lastSeq == |after.rows|
      && sent == (if Changes(cfg, c, choice.marketId, now) then Some(evt) else None)
      && after.rows == c.rows + (if Changes(cfg, c, choice.marketId, now) then [evt] else [])
  {
    var m := choice.marketId;
    var ready := Prepare(cfg, c, m, now);
    PrepareStep(cfg, c, m, now);
    var evt := NewEvent(c, Decide(cfg, c, m, now), choice);
    if Changes(cfg, c, m, now) {
      assert choice == [choice][0];
      EmitKeepsLog(ready, evt, choice);
    } else {
      assert c.rows + [] == c.rows;
    }
  }

  /** The effect of one evaluation whose insert, if any, goes through. */
  ghost predicate EvaluatesTo(cfg: CoreConfig, c: Core, now: int, choice: Choice, after: Core) {
    var m := choice.marketId;
    && LogInv(after) && MarketsInv(after)
    && after.lastSeq == |after.rows|
    && after.rows == c.rows + (if Changes(cfg, c, m, now) then [NewEvent(c, Decide(cfg, c, m, now), choice)] else [])
    && after.markets == c.markets[m := Decide(cfg, c, m, now).next]
    && after.windows == PruneMarket(cfg, c, m, now).windows
  }

  lemma AcceptedEvaluation(cfg: CoreConfig, c: Core, now: int, choice: Choice)
    requires LogInv(c) && MarketsInv(c) && choice.marketId != "" && Accepts(c, [choice])
    ensures EvaluatesTo(cfg, c, now, choice, EvaluateMarket(cfg, c, now, choice))
  {
    var m := choice.marketId;
    AttemptStep(cfg, c, now, choice);
    AttemptSucceeds(cfg, c, now, choice);
    var (after, sent) := Attempt(cfg, c, now, choice);
    var evt := NewEvent(c, Decide(cfg, c, m, now), choice);
    if sent.Some? {
      assert MarketOf(evt) == Decide(cfg, c, m, now).next;
      assert after.markets[m := MarketOf(evt)] == c.markets[m := Decide(cfg, c, m, now).next];
    } else {
      assert after.markets == c.markets[m := Decide(cfg, c, m, now).next];
    }
  }

  /** Part of a tick, already run. */
  ghost predicate Midway(cfg: CoreConfig, c: Core, now: int, init: seq<Choice>, mid: Core, sent: seq<Event>) {
    && LogInv(mid) && MarketsInv(mid)
    && LogSettled(cfg, c, now, init, mid, sent)
    && forall m :: Settled(cfg, c, now, init, mid, m)
  }

  lemma VisitedAppend(init: seq<Choice>, choice: Choice, m: string)
    ensures Visited(init + [choice], m) <==> Visited(init, m) || choice.marketId == m
  {
    var plan := init + [choice];
    assert plan[|init|] == choice;
    if Visited(init, m) {
      var i :| 0 <= i < |init| && init[i].marketId == m;
      assert plan[i].marketId == m;
    }
  }

  lemma NotYetVisited(init: seq<Choice>, choice: Choice)
    requires VisitsOnce(init + [choice])
    ensures choice.marketId != "" && !Visited(init, choice.marketId) && VisitsOnce(init)
  {
    var plan := init + [choice];
    assert plan[|init|] == choice;
    assert forall i :: 0 <= i < |init| ==> plan[i] == init[i];
  }

  /** Earlier inserts of the tick do not take the next one's id. */
  lemma NextInsertAccepted(c: Core, init: seq<Choice>, choice: Choice, mid: Core, sent: seq<Event>)
    requires Accepts(c, init + [choice])
    requires mid.rows == c.rows + sent && mid.lastSeq == |mid.rows|
    requires forall i :: 0 <= i < |sent| ==> StampedFrom(init, sent[i])
    ensures Accepts(mid, [choice])
  {
    var plan := init + [choice];
    assert plan[|init|] == choice;
    forall k | 0 <= k < |mid.rows| ensures choice.eventId != mid.rows[k].id {
      if k >= |c.rows| {
        assert mid.rows[k] == sent[k - |c.rows|];
        var j :| 0 <= j < |init| && sent[k - |c.rows|].id == init[j].eventId;
        assert plan[j] == init[j];
      }
    }
  }

  lemma AcceptsPrefix(c: Core, init: seq<Choice>, choice: Choice)
    requires Accepts(c, init + [choice])
    ensures Accepts(c, init)
  {
    var plan := init + [choice];
    assert forall i :: 0 <= i < |init| ==> plan[i] == init[i];
  }

  /** Earlier evaluations of the tick are invisible to the next market. */
  lemma NextMarketUntouched(cfg: CoreConfig, c: Core, now: int, init: seq<Choice>, mid: Core, m: string)
    requires Settled(cfg, c, now, init, mid, m) && !Visited(init, m)
    ensures Decide(cfg, mid, m, now) == Decide(cfg, c, m, now)
    ensures Changes(cfg, mid, m, now) == Changes(cfg, c, m, now)
  {
  }

  lemma StepSettles(cfg: CoreConfig, c: Core, now: int, init: seq<Choice>, choice: Choice, mid: Core, after: Core,
                    m: string)
    requires Settled(cfg, c, now, init, mid, m) && !Visited(init, choice.marketId)
    requires EvaluatesTo(cfg, mid, now, choice, after)
    ensures Settled(cfg, c, now, init + [choice], after, m)
  {
    VisitedAppend(init, choice, m);
    if m == choice.marketId {
      NextMarketUntouched(cfg, c, now, init, mid, m);
    }
  }

  /** The announcement the last evaluation adds. */
  function Added(cfg: CoreConfig, c: Core, now: int, choice: Choice, mid: Core): seq<Event> {
    if Changes(cfg, c, choice.marketId, now) then [NewEvent(mid, Decide(cfg, c, choice.marketId, now), choice)] else []
  }

  lemma StepSends(cfg: CoreConfig, c: Core, now: int, init: seq<Choice>, choice: Choice, mid: Core, before: seq<Event>)
    requires SentByTick(cfg, c, now, init, before) && !Visited(init, choice.marketId)
    ensures SentByTick(cfg, c, now, init + [choice], before + Added(cfg, c, now, choice, mid))
  {
    var plan := init + [choice];
    var m := choice.marketId;
    var added := Added(cfg, c, now, choice, mid);
    var sent := before + added;
    assert plan[|init|] == choice;
    forall i | 0 <= i < |sent|
      ensures Announces(cfg, c, now, plan, sent[i]) && StampedFrom(plan, sent[i])
      ensures i < |before| <==> sent[i].marketId != m
    {
      VisitedAppend(init, choice, sent[i].marketId);
      if i < |before| {
        assert sent[i] == before[i] && Announces(cfg, c, now, init, before[i]) && StampedFrom(init, before[i]);
        var j :| 0 <= j < |init| && before[i].marketId == init[j].marketId && before[i].id == init[j].eventId
                 && before[i].ts == init[j].ts;
        assert plan[j] == init[j];
      } else {
        assert sent[i] == added[0];
      }
    }
    forall k | Visited(plan, k) && Changes(cfg, c, k, now) ensures Mentions(sent, k) {
      VisitedAppend(init, choice, k);
      if k == m {
        assert sent[|before|].marketId == k;
      } else {
        assert Mentions(before, k);
        var i :| 0 <= i < |before| && before[i].marketId == k;
        assert sent[i].marketId == k;
      }
    }
  }

  lemma AnnouncementsAppend(cfg: CoreConfig, c: Core, now: int, init: seq<Choice>, choice: Choice)
    requires
      var mid, m := RunTick(cfg, c, now, init), choice.marketId;
      && LogInv(mid) && MarketsInv(mid) && m != "" && Accepts(mid, [choice])
      && Settled(cfg, c, now, init, mid, m) && !Visited(init, m)
    ensures Announcements(cfg, c, now, init + [choice]) ==
            Announcements(cfg, c, now, init) + Added(cfg, c, now, choice, RunTick(cfg, c, now, init))
  {
    var mid := RunTick(cfg, c, now, init);
    TickAppend(cfg, c, now, init, choice);
    AttemptSucceeds(cfg, mid, now, choice);
    NextMarketUntouched(cfg, c, now, init, mid, choice.marketId);
  }

  lemma StepMidway(cfg: CoreConfig, c: Core, now: int, init: seq<Choice>, choice: Choice, mid: Core, after: Core,
                   before: seq<Event>)
    requires Midway(cfg, c, now, init, mid, before) && !Visited(init, choice.marketId)
    requires EvaluatesTo(cfg, mid, now, choice, after)
    ensures Midway(cfg, c, now, init + [choice], after, before + Added(cfg, c, now, choice, mid))
  {
    StepSends(cfg, c, now, init, choice, mid, before);
    assert Settled(cfg, c, now, init, mid, choice.marketId);
    NextMarketUntouched(cfg, c, now, init, mid, choice.marketId);
    assert after.rows == c.rows + (before + Added(cfg, c, now, choice, mid));
    forall m ensures Settled(cfg, c, now, init + [choice], after, m) {
      StepSettles(cfg, c, now, init, choice, mid, after, m);
    }
  }

  /** A tick whose inserts succeed settles every visited market on the verdict of the state it started from,
      leaves the others alone, and logs one event for each visited market that changes and nothing else. */
  lemma {:induction false} TickSettles(cfg: CoreConfig, c: Core, now: int, plan: seq<Choice>)
    requires LogInv(c) && MarketsInv(c) && VisitsOnce(plan) && Accepts(c, plan)
    ensures Midway(cfg, c, now, plan, RunTick(cfg, c, now, plan), Announcements(cfg, c, now, plan))
  {
    if plan == [] {
      assert c.rows + [] == c.rows;
    } else {
      var init, choice := plan[..|plan| - 1], plan[|plan| - 1];
      assert plan == init + [choice];
      NotYetVisited(init, choice);
      AcceptsPrefix(c, init, choice);
      TickSettles(cfg, c, now, init);
      var mid, before := RunTick(cfg, c, now, init), Announcements(cfg, c, now, init);
      NextInsertAccepted(c, init, choice, mid, before);
      AcceptedEvaluation(cfg, mid, now, choice);
      assert Settled(cfg, c, now, init, mid, choice.marketId);
      AnnouncementsAppend(cfg, c, now, init, choice);
      StepMidway(cfg, c, now, init, choice, mid, RunTick(cfg, c, now, plan), before);
    }
  }

  // ---------- Consequences ----------

  /** What an event says, apart from its number, id and clock reading. */
  function Content(evt: Event): (EventType, string, Payload) {
    (evt.kind, evt.marketId, evt.payload)
  }

  function Contents(events: seq<Event>): set<(EventType, string, Payload)> {
    set evt | evt in events :: Content(evt)
  }

  lemma VisitsIsOnce(c: Core, plan: seq<Choice>)
    requires MarketsInv(c) && Visits(plan, MarketIds(c))
    ensures VisitsOnce(plan)
    ensures forall m :: Visited(plan, m) <==> m in MarketIds(c)
  {
  }

  lemma SameEventsOneWay(cfg: CoreConfig, c: Core, now: int, plan1: seq<Choice>, plan2: seq<Choice>,
                         sent1: seq<Event>, sent2: seq<Event>)
    requires SentByTick(cfg, c, now, plan1, sent1) && SentByTick(cfg, c, now, plan2, sent2)
    requires forall m :: Visited(plan1, m) <==> Visited(plan2, m)
    ensures forall evt :: evt in sent1 ==> exists evt' :: evt' in sent2 && Content(evt') == Content(evt)
  {
    forall evt | evt in sent1 ensures exists evt' :: evt' in sent2 && Content(evt') == Content(evt) {
      assert Announces(cfg, c, now, plan1, evt);
      assert Mentions(sent2, evt.marketId);
      var i :| 0 <= i < |sent2| && sent2[i].marketId == evt.marketId;
      assert Announces(cfg, c, now, plan2, sent2[i]);
      assert Content(sent2[i]) == Content(evt);
    }
  }

  lemma SameContents(sent1: seq<Event>, sent2: seq<Event>)
    requires forall evt :: evt in sent1 ==> exists evt' :: evt' in sent2 && Content(evt') == Content(evt)
    requires forall evt :: evt in sent2 ==> exists evt' :: evt' in sent1 && Content(evt') == Content(evt)
    ensures Contents(sent1) == Contents(sent2)
  {
  }

  lemma SameWindow(c: Core, c': Core, m: string)
    requires c'.windows.Keys == c.windows.Keys && WindowOf(c, m) == WindowOf(c', m) && m in c.windows
    ensures c.windows[m] == c'.windows[m]
  {
  }

  /** The iteration order of the map does not matter: any two orders give the same markets and windows and log
      the same (type, market, payload) triples, one per market that changes. */
  lemma OrderDoesNotMatter(cfg: CoreConfig, c: Core, now: int, plan1: seq<Choice>, plan2: seq<Choice>)
    requires LogInv(c) && MarketsInv(c)
    requires Visits(plan1, MarketIds(c)) && Visits(plan2, MarketIds(c))
    requires Accepts(c, plan1) && Accepts(c, plan2)
    ensures
      var after1, after2 := RunTick(cfg, c, now, plan1), RunTick(cfg, c, now, plan2);
      var sent1, sent2 := Announcements(cfg, c, now, plan1), Announcements(cfg, c, now, plan2);
      && after1.markets == after2.markets && after1.windows == after2.windows
      && after1.rows == c.rows + sent1 && after2.rows == c.rows + sent2
      && Contents(sent1) == Contents(sent2)
      && (forall i, j :: 0 <= i < j < |sent1| ==> sent1[i].marketId != sent1[j].marketId)
  {
    var after1, after2 := RunTick(cfg, c, now, plan1), RunTick(cfg, c, now, plan2);
    var sent1, sent2 := Announcements(cfg, c, now, plan1), Announcements(cfg, c, now, plan2);
    VisitsIsOnce(c, plan1);
    VisitsIsOnce(c, plan2);
    TickSettles(cfg, c, now, plan1);
    TickSettles(cfg, c, now, plan2);
    SameEventsOneWay(cfg, c, now, plan1, plan2, sent1, sent2);
    SameEventsOneWay(cfg, c, now, plan2, plan1, sent2, sent1);
    SameContents(sent1, sent2);
    SameMaps(cfg, c, now, plan1, plan2, after1, after2);
  }

  lemma SameMaps(cfg: CoreConfig, c: Core, now: int, plan1: seq<Choice>, plan2: seq<Choice>, after1: Core, after2: Core)
    requires forall m :: Settled(cfg, c, now, plan1, after1, m)
    requires forall m :: Settled(cfg, c, now, plan2, after2, m)
    requires forall m :: Visited(plan1, m) <==> Visited(plan2, m)
    requires after1.windows.Keys == after2.windows.Keys
    ensures after1.markets == after2.markets && after1.windows == after2.windows
  {
    forall m
      ensures m in after1.markets <==> m in after2.markets
      ensures m in after1.markets ==> after1.markets[m] == after2.markets[m]
      ensures WindowOf(after1, m) == WindowOf(after2, m)
    {
      assert Settled(cfg, c, now, plan1, after1, m) && Settled(cfg, c, now, plan2, after2, m);
    }
    forall m | m in after1.windows ensures after1.windows[m] == after2.windows[m] {
      SameWindow(after1, after2, m);
    }
  }

  /** The market already shows what an evaluation at this time would make of it. */
  predicate Quiet(cfg: CoreConfig, c: Core, m: string, now: int) {
    m in c.markets && Decide(cfg, c, m, now).next == c.markets[m]
  }

  lemma SettledIsQuiet(cfg: CoreConfig, c: Core, now: int, plan: seq<Choice>, after: Core, m: string)
    requires Settled(cfg, c, now, plan, after, m) && Visited(plan, m)
    ensures Quiet(cfg, after, m, now)
  {
    var cutoff := now - cfg.window;
    KeepKeep(WindowOf(c, m), cutoff, cutoff);
    BreakerIsIdempotent(now, Before(c, m, now), Sum(Keep(WindowOf(c, m), cutoff)), cfg.breaker);
  }

  lemma QuietEvaluation(cfg: CoreConfig, c: Core, now: int, choice: Choice, m: string)
    requires Quiet(cfg, c, choice.marketId, now) && Quiet(cfg, c, m, now)
    ensures
      var (after, sent) := Attempt(cfg, c, now, choice);
      sent == None && after.rows == c.rows && after.lastSeq == c.lastSeq && after.markets == c.markets &&
      Quiet(cfg, after, m, now)
  {
    KeepKeep(WindowOf(c, m), now - cfg.window, now - cfg.window);
  }

  lemma {:induction false} QuietTick(cfg: CoreConfig, c: Core, now: int, plan: seq<Choice>)
    requires forall i :: 0 <= i < |plan| ==> Quiet(cfg, c, plan[i].marketId, now)
    ensures
      var after := RunTick(cfg, c, now, plan);
      && Announcements(cfg, c, now, plan) == []
      && after.rows == c.rows && after.lastSeq == c.lastSeq && after.markets == c.markets
      && forall m :: Quiet(cfg, c, m, now) ==> Quiet(cfg, after, m, now)
  {
    if plan == [] {
    } else {
      var init, choice := plan[..|plan| - 1], plan[|plan| - 1];
      QuietTick(cfg, c, now, init);
      var mid := RunTick(cfg, c, now, init);
      assert Quiet(cfg, mid, choice.marketId, now);
      QuietEvaluation(cfg, mid, now, choice, choice.marketId);
      forall m | Quiet(cfg, c, m, now) ensures Quiet(cfg, RunTick(cfg, c, now, plan), m, now) {
        QuietEvaluation(cfg, mid, now, choice, m);
      }
    }
  }

  /** Ticking again at the same time, with no new signal, logs nothing and changes no market, whatever order the
      second tick takes and whatever the database would do. */
  lemma RepeatedTickIsSilent(cfg: CoreConfig, c: Core, now: int, plan: seq<Choice>, again: seq<Choice>)
    requires LogInv(c) && MarketsInv(c)
    requires Visits(plan, MarketIds(c)) && Accepts(c, plan)
    requires Visits(again, MarketIds(RunTick(cfg, c, now, plan)))
    ensures
      var once := RunTick(cfg, c, now, plan);
      var twice := RunTick(cfg, once, now, again);
      && Announcements(cfg, once, now, again) == []
      && twice.rows == once.rows && twice.lastSeq == once.lastSeq && twice.markets == once.markets
  {
    VisitsIsOnce(c, plan);
    TickSettles(cfg, c, now, plan);
    var once := RunTick(cfg, c, now, plan);
    forall i | 0 <= i < |again| ensures Quiet(cfg, once, again[i].marketId, now) {
      var m := again[i].marketId;
      assert Settled(cfg, c, now, plan, once, m);
      assert m in MarketIds(once);
      assert m in once.markets;
      assert Visited(plan, m);
      SettledIsQuiet(cfg, c, now, plan, once, m);
    }
    QuietTick(cfg, once, now, again);
  }

  lemma VisitedIsSettled(cfg: CoreConfig, c: Core, now: int, plan: seq<Choice>, m: string)
    requires LogInv(c) && MarketsInv(c) && VisitsOnce(plan) && Accepts(c, plan)
    ensures Settled(cfg, c, now, plan, RunTick(cfg, c, now, plan), m)
    ensures KnownStatus(Before(c, m, now).status)
  {
    TickSettles(cfg, c, now, plan);
  }

  lemma OpenVerdict(cfg: CoreConfig, c: Core, m: string, now: int)
    requires KnownStatus(Before(c, m, now).status)
    ensures Decide(cfg, c, m, now).next.status == Open <==>
            && BelowThresholds(Sum(Keep(WindowOf(c, m), now - cfg.window)), cfg.breaker)
            && (Before(c, m, now).status == Open || now >= Before(c, m, now).cooldownUntil)
  {
    BreakerTransitions(now, Before(c, m, now), Sum(Keep(WindowOf(c, m), now - cfg.window)), cfg.breaker);
  }

  ghost predicate OpenIn(c: Core, m: string) {
    m in c.markets && c.markets[m].status == Open
  }

  /** After a tick whose inserts succeed, a market is open exactly when its window sums are below both
      thresholds and it was open before or its deadline has passed. */
  lemma OpenAfterTick(cfg: CoreConfig, c: Core, now: int, plan: seq<Choice>, m: string)
    requires LogInv(c) && MarketsInv(c) && VisitsOnce(plan) && Accepts(c, plan) && Visited(plan, m)
    ensures
      var after := RunTick(cfg, c, now, plan);
      && WindowOf(after, m) == Keep(WindowOf(c, m), now - cfg.window)
      && (OpenIn(after, m) <==>
          && BelowThresholds(Sum(Keep(WindowOf(c, m), now - cfg.window)), cfg.breaker)
          && (Before(c, m, now).status == Open || now >= Before(c, m, now).cooldownUntil))
  {
    VisitedIsSettled(cfg, c, now, plan, m);
    OpenVerdict(cfg, c, m, now);
  }

  /** No timestamp later than the given one. */
  ghost predicate UpTo(points: seq<SignalPoint>, latest: int) {
    forall i :: 0 <= i < |points| ==> points[i].ts <= latest
  }

  lemma NoSignalsIsCalm(points: seq<SignalPoint>, latest: int, cutoff: int, cfg: BreakerConfig)
    requires cfg.betCountThreshold > 0 && cfg.liabilityThreshold > 0
    requires UpTo(points, latest) && latest < cutoff
    ensures BelowThresholds(Sum(Keep(points, cutoff)), cfg)
  {
    KeepNothing(points, cutoff);
  }

  lemma CalmVerdict(cfg: CoreConfig, c: Core, m: string, now: int, latest: int)
    requires cfg.breaker.betCountThreshold > 0 && cfg.breaker.liabilityThreshold > 0
    requires KnownStatus(Before(c, m, now).status) && UpTo(WindowOf(c, m), latest)
    requires now > latest + cfg.window && now >= Before(c, m, now).cooldownUntil
    ensures Decide(cfg, c, m, now).next.status == Open
  {
    NoSignalsIsCalm(WindowOf(c, m), latest, now - cfg.window, cfg.breaker);
    OpenVerdict(cfg, c, m, now);
  }

  /** Nothing keeps a market suspended once its signals have left the window and its deadline has passed. */
  lemma CalmMarketIsOpen(cfg: CoreConfig, c: Core, now: int, plan: seq<Choice>, m: string, latest: int)
    requires LogInv(c) && MarketsInv(c) && VisitsOnce(plan) && Accepts(c, plan) && Visited(plan, m)
    requires cfg.breaker.betCountThreshold > 0 && cfg.breaker.liabilityThreshold > 0
    requires UpTo(WindowOf(c, m), latest)
    requires now > latest + cfg.window && now >= Before(c, m, now).cooldownUntil
    ensures OpenIn(RunTick(cfg, c, now, plan), m)
  {
    VisitedIsSettled(cfg, c, now, plan, m);
    CalmVerdict(cfg, c, m, now, latest);
  }

  // ---------- Whole ticks ----------

  /** The rows a tick has appended about a market. */
  ghost predicate LogsAbout(c: Core, after: Core, m: string, kind: EventType, market: MarketState) {
    exists i :: |c.rows| <= i < |after.rows| && after.rows[i].marketId == m
      && after.rows[i].kind == kind && after.rows[i].payload == Decoded(market)
  }

  lemma KnownIsVisited(c: Core, plan: seq<Choice>, m: string)
    requires MarketsInv(c) && Visits(plan, c.markets.Keys + c.windows.Keys) && m in c.markets
    ensures VisitsOnce(plan) && Visited(plan, m)
  {
  }

  lemma TickLogs(cfg: CoreConfig, c: Core, now: int, plan: seq<Choice>, after: Core, sent: seq<Event>, m: string)
    requires LogSettled(cfg, c, now, plan, after, sent) && Visited(plan, m) && m in c.markets
    requires Decide(cfg, c, m, now).transitioned <==> Decide(cfg, c, m, now).kind != MarketUpdated
    ensures
      var verdict := Decide(cfg, c, m, now);
      if verdict.next != c.markets[m] then LogsAbout(c, after, m, verdict.kind, verdict.next)
      else forall i :: |c.rows| <= i < |after.rows| ==> after.rows[i].marketId != m
  {
    if Changes(cfg, c, m, now) {
      assert Mentions(sent, m);
      var i :| 0 <= i < |sent| && sent[i].marketId == m;
      assert Announces(cfg, c, now, plan, sent[i]);
      assert after.rows[|c.rows| + i] == sent[i];
    } else {
      forall i | |c.rows| <= i < |after.rows| ensures after.rows[i].marketId != m {
        assert after.rows[i] == sent[i - |c.rows|] && Announces(cfg, c, now, plan, sent[i - |c.rows|]);
      }
    }
  }

  lemma TickDecides(cfg: CoreConfig, c: Core, now: int, plan: seq<Choice>, m: string)
    requires LogInv(c) && MarketsInv(c) && VisitsOnce(plan) && Accepts(c, plan) && Visited(plan, m)
    ensures
      var after := RunTick(cfg, c, now, plan);
      && m in after.markets && after.markets[m] == Decide(cfg, c, m, now).next
      && LogSettled(cfg, c, now, plan, after, Announcements(cfg, c, now, plan))
  {
    TickSettles(cfg, c, now, plan);
    assert Settled(cfg, c, now, plan, RunTick(cfg, c, now, plan), m);
  }

  /** A known market after a tick: it follows the rule of the breaker on these sums; if that changes it in any field,
      the log got an event about it with exactly the new state and the kind the rule gives, and otherwise none. */
  ghost predicate Ruled(cfg: CoreConfig, c: Core, now: int, after: Core, m: string, kind: EventType,
                        sums: WindowMetrics)
    requires m in c.markets
  {
    && m in after.markets
    && FollowsRule(now, c.markets[m], sums, cfg.breaker, after.markets[m], kind, kind != MarketUpdated)
    && c.rows <= after.rows
    && (if after.markets[m] != c.markets[m] then LogsAbout(c, after, m, kind, after.markets[m])
        else forall i :: |c.rows| <= i < |after.rows| ==> after.rows[i].marketId != m)
  }

  lemma DecidedIsRuled(cfg: CoreConfig, c: Core, now: int, plan: seq<Choice>, after: Core, sent: seq<Event>, m: string)
    requires LogSettled(cfg, c, now, plan, after, sent) && Visited(plan, m) && m in c.markets
    requires m in after.markets && after.markets[m] == Decide(cfg, c, m, now).next
    ensures Ruled(cfg, c, now, after, m, Decide(cfg, c, m, now).kind, Sum(Keep(WindowOf(c, m), now - cfg.window)))
  {
    var verdict := Decide(cfg, c, m, now);
    BreakerVerdict(now, c.markets[m], Sum(Keep(WindowOf(c, m), now - cfg.window)), cfg.breaker, verdict);
    TickLogs(cfg, c, now, plan, after, sent, m);
  }

  /** A tick that visits all the core knows, and whose inserts succeed, treats every known market, open or suspended,
      with signals or without, by the rule, on the sums of its points that are not older than the window. */
  lemma TickFollowsTheRule(cfg: CoreConfig, c: Core, now: int, plan: seq<Choice>, m: string) returns (kind: EventType)
    requires LogInv(c) && MarketsInv(c) && Accepts(c, plan)
    requires Visits(plan, c.markets.Keys + c.windows.Keys) && m in c.markets
    ensures Ruled(cfg, c, now, RunTick(cfg, c, now, plan), m, kind,
                  Sum(Keep(if m in c.windows then c.windows[m] else [], now - cfg.window)))
  {
    kind := Decide(cfg, c, m, now).kind;
    KnownIsVisited(c, plan, m);
    TickDecides(cfg, c, now, plan, m);
    DecidedIsRuled(cfg, c, now, plan, RunTick(cfg, c, now, plan), Announcements(cfg, c, now, plan), m);
  }

  lemma SpikeSuspends(cfg: CoreConfig, c: Core, now: int, after: Core, m: string, kind: EventType, sums: WindowMetrics)
    requires m in c.markets && Ruled(cfg, c, now, after, m, kind, sums)
    requires c.markets[m].status == Open && sums.betCount >= cfg.breaker.betCountThreshold
    ensures Suspends(c, after, m, sums)
  {
  }

  /** The tick suspended the market for its bet rate, and market and log show these sums. */
  ghost predicate Suspends(c: Core, after: Core, m: string, sums: WindowMetrics) {
    && m in after.markets
    && after.markets[m].status == Suspended && after.markets[m].lastReason == BetRateSpike
    && after.markets[m].betCount == sums.betCount
    && after.markets[m].stakeSum == sums.stakeSum
    && after.markets[m].liabilityDelta == sums.liabilityDelta
    && LogsAbout(c, after, m, MarketSuspended, after.markets[m])
  }

  lemma StretchesTogether(points: seq<SignalPoint>, cutoff: int, a: seq<SignalPoint>, b: seq<SignalPoint>)
    requires points == a + b && forall i :: 0 <= i < |points| ==> points[i].ts >= cutoff
    ensures Sum(Keep(points, cutoff)) ==
            WindowMetrics(Sum(a).betCount + Sum(b).betCount, Sum(a).stakeSum + Sum(b).stakeSum,
                          Sum(a).liabilityDelta + Sum(b).liabilityDelta)
  {
    KeepAll(points, cutoff);
    assert Keep(points, cutoff) == a + b;
    SumConcat(a, b);
  }

  lemma TogetherRuled(cfg: CoreConfig, c: Core, now: int, after: Core, m: string, kind: EventType,
                      a: seq<SignalPoint>, b: seq<SignalPoint>)
    requires m in c.markets && c.markets[m].status == Open
    requires m in c.windows && c.windows[m] == a + b
    requires forall i :: 0 <= i < |c.windows[m]| ==> c.windows[m][i].ts >= now - cfg.window
    requires Sum(a).betCount + Sum(b).betCount >= cfg.breaker.betCountThreshold
    requires Ruled(cfg, c, now, after, m, kind, Sum(Keep(c.windows[m], now - cfg.window)))
    ensures Suspends(c, after, m, WindowMetrics(Sum(a).betCount + Sum(b).betCount, Sum(a).stakeSum + Sum(b).stakeSum,
                                                Sum(a).liabilityDelta + Sum(b).liabilityDelta))
  {
    StretchesTogether(c.windows[m], now - cfg.window, a, b);
    SpikeSuspends(cfg, c, now, after, m, kind, Sum(Keep(c.windows[m], now - cfg.window)));
  }

  /** Signals count together: if two stretches of an open market's window, none of it too old, reach the bet threshold
      between them, the tick suspends the market for its bet rate, and it shows both stretches' numbers. */
  lemma TogetherTheySuspend(cfg: CoreConfig, c: Core, now: int, plan: seq<Choice>, m: string,
                            a: seq<SignalPoint>, b: seq<SignalPoint>)
    requires LogInv(c) && MarketsInv(c) && Accepts(c, plan)
    requires Visits(plan, c.markets.Keys + c.windows.Keys) && m in c.markets && c.markets[m].status == Open
    requires m in c.windows && c.windows[m] == a + b
    requires forall i :: 0 <= i < |c.windows[m]| ==> c.windows[m][i].ts >= now - cfg.window
    requires Sum(a).betCount + Sum(b).betCount >= cfg.breaker.betCountThreshold
    ensures Suspends(c, RunTick(cfg, c, now, plan), m,
                     WindowMetrics(Sum(a).betCount + Sum(b).betCount, Sum(a).stakeSum + Sum(b).stakeSum,
                                   Sum(a).liabilityDelta + Sum(b).liabilityDelta))
  {
    var kind := TickFollowsTheRule(cfg, c, now, plan, m);
    TogetherRuled(cfg, c, now, RunTick(cfg, c, now, plan), m, kind, a, b);
  }
}
