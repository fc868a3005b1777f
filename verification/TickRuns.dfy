/** Whole ticks as runs of small steps, and what the metrics of a tick see. */
module TickRuns {
  import opened Domain
  import opened Breaker
  import opened SignalWindow
  import opened CoreState
  import opened CoreHistory
  import opened Hub
  import opened Protocol
  import opened ProtocolSafety
  import opened ReplicaSafety
  import opened WindowHistory

  // ---------- Atomic ticks ----------

  /** One evaluation: the broadcast and the assignment do nothing when nothing was persisted. */
  function EvaluationSteps(choice: Choice): seq<Step> {
    [CoreDoes(EvaluateNext(choice))] + [CoreDoes(BroadcastEvent)] + [CoreDoes(AssignMarket)]
  }

  function PlanSteps(plan: seq<Choice>): seq<Step> {
    if plan == [] then []
    else PlanSteps(plan[..|plan| - 1]) + EvaluationSteps(plan[|plan| - 1])
  }

  function TickSteps(now: int, plan: seq<Choice>): seq<Step> {
    [CoreDoes(BeginTick(now))] + PlanSteps(plan) + [CoreDoes(EndTick)]
  }

  lemma {:induction false} RunConcat(cfg: CoreConfig, s: System, a: seq<Step>, b: seq<Step>)
    ensures Run(cfg, s, a + b) == Run(cfg, Run(cfg, s, a), b)
    decreases |b|
  {
    if b == [] {
      assert a + b == a;
    } else {
      RunConcat(cfg, s, a, b[..|b| - 1]);
      assert (a + b)[..|a + b| - 1] == a + b[..|b| - 1];
    }
  }

  lemma RunOne(cfg: CoreConfig, s: System, step: Step)
    ensures Run(cfg, s, [step]) == Do(cfg, s, step)
  {
    assert [step][..0] == [];
  }

  lemma RunMore(cfg: CoreConfig, s: System, steps: seq<Step>, step: Step)
    ensures Run(cfg, s, steps + [step]) == Do(cfg, Run(cfg, s, steps), step)
  {
    assert (steps + [step])[..|steps|] == steps;
  }

  lemma RunEvaluation(cfg: CoreConfig, s: System, choice: Choice)
    ensures Run(cfg, s, EvaluationSteps(choice)) == DoAssign(DoBroadcast(DoEvaluate(cfg, s, choice)))
  {
    var a, b, c := CoreDoes(EvaluateNext(choice)), CoreDoes(BroadcastEvent), CoreDoes(AssignMarket);
    RunConcat(cfg, s, [a] + [b], [c]);
    RunConcat(cfg, s, [a], [b]);
    RunOne(cfg, s, a);
    RunOne(cfg, DoEvaluate(cfg, s, choice), b);
    RunOne(cfg, DoBroadcast(DoEvaluate(cfg, s, choice)), c);
  }

  /** A session after the core has broadcast some events. */
  function OfferEvents(sess: Session, events: seq<Event>): Session {
    if events == [] then sess else OfferTo(OfferEvents(sess, events[..|events| - 1]), events[|events| - 1])
  }

  /** Its channel is one that was offered them, and nothing but the record of them changes beside. */
  lemma {:induction false} OfferEventsChannel(sess: Session, events: seq<Event>)
    ensures
      var sess' := OfferEvents(sess, events);
      sess' == sess.(chan := OfferAll(sess.chan, events), past := sess.past.(offered := sess'.past.offered))
  {
    if events == [] {
    } else {
      OfferEventsChannel(sess, events[..|events| - 1]);
    }
  }

  /** The sessions after the core has broadcast some events. */
  function Offered(sessions: map<nat, Session>, events: seq<Event>): map<nat, Session> {
    map sid | sid in sessions :: OfferEvents(sessions[sid], events)
  }

  lemma OfferedNothing(sessions: map<nat, Session>)
    ensures Offered(sessions, []) == sessions
  {
  }

  lemma OfferedMore(sessions: map<nat, Session>, events: seq<Event>, evt: Event)
    ensures (map sid | sid in sessions :: OfferTo(Offered(sessions, events)[sid], evt)) ==
            Offered(sessions, events + [evt])
  {
    assert (events + [evt])[..|events|] == events;
  }

  /** Evaluate, broadcast, assign, with nothing in between, is one atomic evaluation of the core: sessions are
      offered what it sends, and replicas are left alone. */
  lemma EvaluationIsAtomic(cfg: CoreConfig, s: System, choice: Choice, sessions: map<nat, Session>, sent: seq<Event>)
    requires s.pc.Ticking? && choice.marketId in s.pc.remaining && s.sessions == Offered(sessions, sent)
    ensures
      var s' := Run(cfg, s, EvaluationSteps(choice));
      && s'.core == EvaluateMarket(cfg, s.core, s.pc.now, choice)
      && s'.pc == Ticking(s.pc.now, s.pc.remaining - {choice.marketId})
      && s'.sent == s.sent + Sent(cfg, s.core, s.pc.now, choice)
      && s'.sessions == Offered(sessions, sent + Sent(cfg, s.core, s.pc.now, choice))
      && s'.nodes == s.nodes
  {
    RunEvaluation(cfg, s, choice);
    match Attempt(cfg, s.core, s.pc.now, choice).1
    case None => assert sent + [] == sent && s.sent + [] == s.sent;
    case Some(evt) => OfferedMore(sessions, sent, evt);
  }

  function VisitedBy(plan: seq<Choice>): set<string> {
    set i | 0 <= i < |plan| :: plan[i].marketId
  }

  lemma VisitedByAppend(plan: seq<Choice>)
    requires plan != []
    ensures VisitedBy(plan) == VisitedBy(plan[..|plan| - 1]) + {plan[|plan| - 1].marketId}
  {
    var init := plan[..|plan| - 1];
    forall m | m in VisitedBy(plan) ensures m in VisitedBy(init) + {plan[|plan| - 1].marketId} {
      var i :| 0 <= i < |plan| && plan[i].marketId == m;
      if i < |init| {
        assert init[i].marketId == m;
      }
    }
    forall m | m in VisitedBy(init) ensures m in VisitedBy(plan) {
      var i :| 0 <= i < |init| && init[i].marketId == m;
      assert plan[i].marketId == m;
    }
  }

  /** A tick that has carried out a plan, and nothing else happened. */
  ghost predicate CarriedOut(cfg: CoreConfig, s: System, plan: seq<Choice>, s': System)
    requires s.pc.Ticking?
  {
    var sent := Announcements(cfg, s.core, s.pc.now, plan);
    && s'.core == RunTick(cfg, s.core, s.pc.now, plan)
    && s'.pc == Ticking(s.pc.now, s.pc.remaining - VisitedBy(plan))
    && s'.sent == s.sent + sent
    && s'.sessions == Offered(s.sessions, sent)
    && s'.nodes == s.nodes
  }

  lemma CarryOutNext(cfg: CoreConfig, s: System, init: seq<Choice>, choice: Choice, mid: System)
    requires s.pc.Ticking? && CarriedOut(cfg, s, init, mid)
    requires choice.marketId in s.pc.remaining - VisitedBy(init)
    ensures CarriedOut(cfg, s, init + [choice], Run(cfg, mid, EvaluationSteps(choice)))
  {
    var sent := Announcements(cfg, s.core, s.pc.now, init);
    EvaluationIsAtomic(cfg, mid, choice, s.sessions, sent);
    TickAppend(cfg, s.core, s.pc.now, init, choice);
    RemainingAfter(s.pc.remaining, init, choice);
    ConcatThree(s.sent, sent, Sent(cfg, mid.core, s.pc.now, choice));
  }

  lemma RemainingAfter(remaining: set<string>, init: seq<Choice>, choice: Choice)
    ensures remaining - VisitedBy(init) - {choice.marketId} == remaining - VisitedBy(init + [choice])
  {
    VisitedByAppend(init + [choice]);
    assert (init + [choice])[..|init|] == init;
  }

  lemma ConcatThree(a: seq<Event>, b: seq<Event>, c: seq<Event>)
    ensures a + b + c == a + (b + c)
  {
  }

  lemma {:induction false} PlanIsAtomic(cfg: CoreConfig, s: System, plan: seq<Choice>)
    requires s.pc.Ticking? && VisitedBy(plan) <= s.pc.remaining
    requires forall i, j :: 0 <= i < j < |plan| ==> plan[i].marketId != plan[j].marketId
    ensures CarriedOut(cfg, s, plan, Run(cfg, s, PlanSteps(plan)))
  {
    if plan == [] {
      OfferedNothing(s.sessions);
      assert s.sent + [] == s.sent;
      assert s.pc.remaining - VisitedBy(plan) == s.pc.remaining;
    } else {
      var init, choice := plan[..|plan| - 1], plan[|plan| - 1];
      VisitedByAppend(plan);
      assert choice.marketId !in VisitedBy(init);
      PlanIsAtomic(cfg, s, init);
      RunConcat(cfg, s, PlanSteps(init), EvaluationSteps(choice));
      CarryOutNext(cfg, s, init, choice, Run(cfg, s, PlanSteps(init)));
      assert init + [choice] == plan;
    }
  }

  lemma RunTickSteps(cfg: CoreConfig, s: System, now: int, plan: seq<Choice>)
    ensures Run(cfg, s, TickSteps(now, plan)) == DoEndTick(Run(cfg, DoBeginTick(s, now), PlanSteps(plan)))
  {
    var begin, end := CoreDoes(BeginTick(now)), CoreDoes(EndTick);
    RunConcat(cfg, s, [begin] + PlanSteps(plan), [end]);
    RunConcat(cfg, s, [begin], PlanSteps(plan));
    RunOne(cfg, s, begin);
    RunOne(cfg, Run(cfg, DoBeginTick(s, now), PlanSteps(plan)), end);
  }

  /** The tick the core object performs under its mutex is a run of the small steps: for every order and every
      outcome of its inserts, nothing else happening in between leads to the same core, offers every session the
      events the tick announces, in order, and leaves replicas alone. */
  lemma TickIsARun(cfg: CoreConfig, s: System, now: int, plan: seq<Choice>)
    requires s.pc == Idle && Visits(plan, s.core.markets.Keys + s.core.windows.Keys)
    ensures
      var s' := Run(cfg, s, TickSteps(now, plan));
      && s'.pc == Idle && s'.core == RunTick(cfg, s.core, now, plan)
      && s'.sent == s.sent + Announcements(cfg, s.core, now, plan)
      && s'.sessions == Offered(s.sessions, Announcements(cfg, s.core, now, plan))
      && s'.nodes == s.nodes
  {
    RunTickSteps(cfg, s, now, plan);
    VisitsAll(plan, MarketIds(s.core));
    PlanIsAtomic(cfg, DoBeginTick(s, now), plan);
  }

  lemma VisitsAll(plan: seq<Choice>, ids: set<string>)
    requires Visits(plan, ids)
    ensures VisitedBy(plan) == ids
  {
    forall id | id in ids ensures id in VisitedBy(plan) {
      var i :| 0 <= i < |plan| && plan[i].marketId == id;
    }
  }

  // ---------- Clocks ----------

  /** The clock reading a step acts on, if it acts on one. */
  function Reading(step: Step): Option<int> {
    match step
    case CoreDoes(IngestSignal(_, _, now)) => Some(now)
    case CoreDoes(ClearSignals(_, now)) => Some(now)
    case CoreDoes(BeginTick(now)) => Some(now)
    case CoreDoes(RestartCore(now)) => Some(now)
    case _ => None
  }

  /** The last reading of a run. */
  function Clock(start: int, steps: seq<Step>): int {
    if steps == [] then start
    else
      match Reading(steps[|steps| - 1])
      case Some(now) => now
      case None => Clock(start, steps[..|steps| - 1])
  }

  /** Readings never go back. */
  predicate Monotone(start: int, steps: seq<Step>) {
    steps == [] ||
    (var init, last := steps[..|steps| - 1], steps[|steps| - 1];
     Monotone(start, init) && (Reading(last).Some? ==> Clock(start, init) <= Reading(last).value))
  }

  ghost predicate WindowsSafe(cfg: CoreConfig, s: System, clock: int) {
    && WindowInv(cfg, s.core, s.trace, clock)
    && (s.pc != Idle ==> s.pc.now <= clock && WindowInv(cfg, s.core, s.trace, s.pc.now))
  }

  lemma EvaluateKeepsWindows(cfg: CoreConfig, s: System, choice: Choice, clock: int)
    requires Safe(s) && WindowsSafe(cfg, s, clock)
    ensures WindowsSafe(cfg, DoEvaluate(cfg, s, choice), clock)
  {
    if s.pc.Ticking? && choice.marketId in s.pc.remaining {
      var s' := DoEvaluate(cfg, s, choice);
      AttemptStep(cfg, s.core, s.pc.now, choice);
      PruneKeepsWindows(cfg, s.core, s.trace, s'.core, s'.trace, choice.marketId, s.pc.now);
      LaterKeepsWindows(cfg, s'.core, s'.trace, s.pc.now, clock);
    }
  }

  lemma SameWindowsSafe(cfg: CoreConfig, s: System, s': System, clock: int)
    requires WindowsSafe(cfg, s, clock)
    requires s'.core.windows == s.core.windows && s'.trace == s.trace
    requires s'.pc == Idle || (s.pc != Idle && s'.pc.now == s.pc.now)
    ensures WindowsSafe(cfg, s', clock)
  {
    forall m ensures Agree(WindowOf(s'.core, m), SignalsOf(s'.trace, m), clock - cfg.window) {
      assert Agree(WindowOf(s.core, m), SignalsOf(s.trace, m), clock - cfg.window);
    }
    if s.pc != Idle {
      forall m ensures Agree(WindowOf(s'.core, m), SignalsOf(s'.trace, m), s.pc.now - cfg.window) {
        assert Agree(WindowOf(s.core, m), SignalsOf(s.trace, m), s.pc.now - cfg.window);
      }
    }
  }

  lemma NewCoreKeepsWindows(cfg: CoreConfig, s: System, now: int)
    ensures WindowsSafe(cfg, DoRestartCore(cfg, s, now), now)
  {
  }

  lemma TimedStepKeepsWindows(cfg: CoreConfig, s: System, step: Step, clock: int, now: int)
    requires WindowsSafe(cfg, s, clock) && clock <= now && Reading(step) == Some(now)
    ensures WindowsSafe(cfg, Do(cfg, s, step), now)
  {
    LaterKeepsWindows(cfg, s.core, s.trace, clock, now);
    match step.act
    case IngestSignal(marketId, point, _) => IngestKeepsWindows(cfg, s.core, s.trace, marketId, point, now);
    case ClearSignals(marketId, _) => ClearKeepsWindows(cfg, s.core, s.trace, marketId, now);
    case BeginTick(_) =>
    case RestartCore(_) => NewCoreKeepsWindows(cfg, s, now);
  }

  lemma UntimedActionKeepsWindows(cfg: CoreConfig, s: System, act: CoreAction, clock: int)
    requires Safe(s) && WindowsSafe(cfg, s, clock) && Reading(CoreDoes(act)).None?
    ensures WindowsSafe(cfg, DoCore(cfg, s, act), clock)
  {
    match act
    case EvaluateNext(choice) => EvaluateKeepsWindows(cfg, s, choice, clock);
    case BroadcastEvent => SameWindowsSafe(cfg, s, DoBroadcast(s), clock);
    case AssignMarket => SameWindowsSafe(cfg, s, DoAssign(s), clock);
    case EndTick => SameWindowsSafe(cfg, s, DoEndTick(s), clock);
  }

  lemma StepKeepsWindows(cfg: CoreConfig, s: System, step: Step, clock: int)
    requires Safe(s) && WindowsSafe(cfg, s, clock) && Reading(step).None?
    ensures WindowsSafe(cfg, Do(cfg, s, step), clock)
  {
    match step
    case CoreDoes(act) => UntimedActionKeepsWindows(cfg, s, act, clock);
    case _ => SameWindowsSafe(cfg, s, Do(cfg, s, step), clock);
  }

  lemma {:induction false} MonotoneRunsKeepWindows(cfg: CoreConfig, rows: seq<Event>, start: int, steps: seq<Step>)
    requires cfg.defaultMarket != "" && StartLog(rows) && Monotone(start, steps)
    ensures WindowsSafe(cfg, Run(cfg, Init(cfg, rows, start), steps), Clock(start, steps))
  {
    if steps == [] {
    } else {
      var init, last := steps[..|steps| - 1], steps[|steps| - 1];
      MonotoneRunsKeepWindows(cfg, rows, start, init);
      RunsAreSafe(cfg, rows, start, init);
      var s := Run(cfg, Init(cfg, rows, start), init);
      if Reading(last).Some? {
        TimedStepKeepsWindows(cfg, s, last, Clock(start, init), Reading(last).value);
      } else {
        StepKeepsWindows(cfg, s, last, Clock(start, init));
      }
    }
  }

  /** With readings that never go back, the verdict of every evaluation in every run rests on the sums over the
      whole signal history since the last clear or core restart, restricted to the window: pruning by earlier
      signals and ticks never dropped a point that should count, late and future timestamps included. The order is
      that of the critical sections: a reading taken before the mutex, or the time of a tick that comes late, can be
      older than the one before it although the clock itself never goes back, and then this says nothing. */
  lemma VerdictsReadTheWholeHistory(cfg: CoreConfig, rows: seq<Event>, start: int, steps: seq<Step>, m: string)
    requires cfg.defaultMarket != "" && StartLog(rows) && Monotone(start, steps)
    requires Run(cfg, Init(cfg, rows, start), steps).pc.Ticking?
    ensures
      var s := Run(cfg, Init(cfg, rows, start), steps);
      Decide(cfg, s.core, m, s.pc.now) ==
        ApplyBreaker(s.pc.now, if m in s.core.markets then s.core.markets[m] else FirstSeen(m, s.pc.now),
                     Sum(Keep(SignalsOf(s.trace, m), s.pc.now - cfg.window)), cfg.breaker)
  {
    MonotoneRunsKeepWindows(cfg, rows, start, steps);
    var s := Run(cfg, Init(cfg, rows, start), steps);
    DecideReadsHistory(cfg, s.core, s.trace, m, s.pc.now);
  }
}
