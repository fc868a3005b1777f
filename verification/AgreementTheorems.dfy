/** What replicas and snapshots hold, against the log: for every run of a core that starts from an empty log and is
    not restarted. */
module AgreementTheorems {
  import opened Domain
  import opened EventLog
  import opened CoreState
  import opened CoreHistory
  import opened Protocol
  import opened ProtocolSafety
  import opened ReplicaSafety
  import opened ProtocolHistory
  import opened ProtocolTheorems
  import BreakerHistory

  lemma ReachableIsFaithful(cfg: CoreConfig, s: System)
    requires Reachable(cfg, [], s, SameCore)
    ensures Safe(s) && Faithful(cfg, s)
  {
    var now, steps :| Uses(steps, SameCore) && s == Run(cfg, Init(cfg, [], now), steps);
    RunsAreFaithful(cfg, now, steps);
  }

  // ---------- Snapshots ----------

  /** A snapshot taken between ticks agrees with the log it is numbered by on exactly the markets whose last row in
      it was reported as stored; every market of the log is in it. Whatever fails. */
  lemma SnapshotAgreesWithLog(cfg: CoreConfig, s: System, m: string)
    requires Reachable(cfg, [], s, SameCore) && s.pc == Idle && m in s.core.markets
    ensures 0 <= s.core.lastSeq <= |s.core.rows| && m in s.trace.firstSeen
    ensures TakeSnapshot(s.core).markets[m] == LogValue(s.trace.firstSeen[m], s.core.rows, s.core.lastSeq, m)
            <==> Clean(s.core.rows, s.trace.acks, s.core.lastSeq, m)
    ensures forall i :: 0 <= i < s.core.lastSeq ==> s.core.rows[i].marketId in s.core.markets
    ensures s.trace.firstSeen[m] == FirstSeen(m, s.trace.firstSeen[m].lastTransition)
  {
    ReachableIsFaithful(cfg, s);
    SnapshotAgreement(cfg, s.core, s.trace);
    assert BaseFollows(s.core.rows, s.trace, s.core.markets, s.core.lastSeq, m);
  }

  /** A failed insert stores nothing, and the core is not restarted. */
  predicate Honest(step: Step) {
    && SameCore(step)
    && (step.CoreDoes? && step.act.EvaluateNext? ==> step.act.choice.outcome != FailsStored)
  }

  ghost predicate AllAcked(s: System) {
    && |s.trace.acks| == |s.core.rows| == s.core.lastSeq
    && forall i :: 0 <= i < |s.trace.acks| ==> s.trace.acks[i]
  }

  lemma HonestEvaluation(cfg: CoreConfig, s: System, choice: Choice)
    requires Safe(s) && AllAcked(s) && choice.outcome != FailsStored
    ensures AllAcked(DoEvaluate(cfg, s, choice))
  {
    if s.pc.Ticking? && choice.marketId in s.pc.remaining {
      AttemptStep(cfg, s.core, s.pc.now, choice);
    }
  }

  lemma HonestAction(cfg: CoreConfig, s: System, act: CoreAction)
    requires cfg.defaultMarket != "" && Safe(s) && AllAcked(s) && Honest(CoreDoes(act))
    ensures AllAcked(DoCore(cfg, s, act))
  {
    match act
    case EvaluateNext(choice) => HonestEvaluation(cfg, s, choice);
    case IngestSignal(marketId, point, now) => IngestStep(cfg, s.core, marketId, point, now);
    case ClearSignals(marketId, now) => ClearStep(cfg, s.core, marketId, now);
    case _ =>
  }

  lemma HonestStep(cfg: CoreConfig, s: System, step: Step)
    requires cfg.defaultMarket != "" && Safe(s) && AllAcked(s) && Honest(step)
    ensures AllAcked(Do(cfg, s, step))
  {
    match step
    case CoreDoes(act) => HonestAction(cfg, s, act);
    case _ =>
  }

  lemma {:induction false} HonestRuns(cfg: CoreConfig, now: int, steps: seq<Step>)
    requires cfg.defaultMarket != "" && Uses(steps, Honest)
    ensures AllAcked(Run(cfg, Init(cfg, [], now), steps))
  {
    if steps == [] {
    } else {
      var init := steps[..|steps| - 1];
      HonestRuns(cfg, now, init);
      RunsAreSafe(cfg, [], now, init);
      HonestStep(cfg, Run(cfg, Init(cfg, [], now), init), steps[|steps| - 1]);
    }
  }

  lemma HonestIsFaithful(cfg: CoreConfig, s: System)
    requires Reachable(cfg, [], s, Honest)
    ensures Safe(s) && Faithful(cfg, s) && AllAcked(s)
  {
    var now, steps :| Uses(steps, Honest) && s == Run(cfg, Init(cfg, [], now), steps);
    RunsAreFaithful(cfg, now, steps);
    HonestRuns(cfg, now, steps);
  }

  lemma AckedIsClean(rows: seq<Event>, acks: seq<bool>, n: nat, m: string)
    requires n <= |rows| <= |acks| && forall i :: 0 <= i < |acks| ==> acks[i]
    ensures Clean(rows, acks, n, m)
  {
  }

  /** If failed inserts store nothing, every snapshot is numbered by the whole log and is the first-seen states
      overlaid with the latest logged payloads, even after ticks in which only some inserts went through. */
  lemma HonestSnapshotIsTheLog(cfg: CoreConfig, s: System)
    requires Reachable(cfg, [], s, Honest) && s.pc == Idle
    ensures
      var snapshot := TakeSnapshot(s.core);
      && snapshot.lastSeq == |s.core.rows|
      && snapshot.markets.Keys == s.trace.firstSeen.Keys
      && (forall m :: m in snapshot.markets ==>
          snapshot.markets[m] == LogValue(s.trace.firstSeen[m], s.core.rows, |s.core.rows|, m))
  {
    HonestIsFaithful(cfg, s);
    SnapshotAgreement(cfg, s.core, s.trace);
    forall m | m in s.core.markets
      ensures s.core.markets[m] == LogValue(s.trace.firstSeen[m], s.core.rows, |s.core.rows|, m)
    {
      assert BaseFollows(s.core.rows, s.trace, s.core.markets, s.core.lastSeq, m);
      AckedIsClean(s.core.rows, s.trace.acks, s.core.lastSeq, m);
    }
  }

  // ---------- Replicas ----------

  /** What one market of a bootstrapped replica owes to the log prefix it has applied. */
  ghost predicate Agrees(rows: seq<Event>, t: Trace, node: Node, m: string)
    requires m in node.mem.markets && 0 <= node.mem.lastApplied <= |rows|
  {
    m in t.firstSeen && node.mem.markets[m] == LogValue(t.firstSeen[m], rows, node.mem.lastApplied, m)
  }

  /** The replica's snapshot was clean about the market, or an event about it has been applied since. */
  predicate Backed(rows: seq<Event>, t: Trace, node: Node, m: string)
    requires 0 <= node.baseSeq <= node.mem.lastApplied <= |rows|
  {
    || LastIndex(rows[node.baseSeq..node.mem.lastApplied], m) >= 0
    || Clean(rows, t.acks, node.baseSeq, m)
  }

  /** A prefix of the log in two parts: whatever a map held before the second, the part's last payload about a market
      is the prefix's, and without one nothing about the market changes. */
  lemma FoldInParts(rows: seq<Event>, base: map<string, MarketState>, b: nat, n: nat, init: MarketState, m: string)
    requires b <= n <= |rows|
    ensures
      var since := rows[b..n];
      var folded := Fold(base, since);
      if LastIndex(since, m) >= 0 then
        m in folded && folded[m] == LogValue(init, rows, n, m) && b + LastIndex(since, m) < n
        && rows[b + LastIndex(since, m)].marketId == m
      else
        && (m in folded <==> m in base) && (m in base ==> folded[m] == base[m])
        && LogValue(init, rows, n, m) == LogValue(init, rows, b, m)
  {
    assert rows[..n] == rows[..b] + rows[b..n];
    ValueInParts(rows[..b], rows[b..n], rows[..n], init, m);
    FoldAt(base, rows[b..n], m);
    if LastIndex(rows[b..n], m) >= 0 {
      RowInSlice(rows, b, n, LastIndex(rows[b..n], m));
    }
  }

  lemma ValueAtConcat(a: seq<Event>, since: seq<Event>, prefix: seq<Event>, init: MarketState, i: int, j: int)
    requires prefix == a + since && -1 <= i < |a| && -1 <= j < |since|
    ensures ValueAt(init, prefix, if j >= 0 then |a| + j else i) ==
            if j >= 0 then MarketOf(since[j]) else ValueAt(init, a, i)
  {
  }

  lemma ValueInParts(a: seq<Event>, since: seq<Event>, prefix: seq<Event>, init: MarketState, m: string)
    requires prefix == a + since
    ensures ValueAt(init, prefix, LastIndex(prefix, m)) ==
            if LastIndex(since, m) >= 0 then MarketOf(since[LastIndex(since, m)])
            else ValueAt(init, a, LastIndex(a, m))
  {
    LastIndexConcat(a, since, m);
    ValueAtConcat(a, since, prefix, init, LastIndex(a, m), LastIndex(since, m));
  }

  lemma RowInSlice(rows: seq<Event>, b: nat, n: nat, k: nat)
    requires b <= n <= |rows| && k < n - b
    ensures rows[b..n][k] == rows[b + k]
  {
  }

  lemma MarketAgreement(rows: seq<Event>, t: Trace, node: Node, m: string)
    requires node.mem.bootstrapped && MemorySafe(rows, node) && m in node.mem.markets
    requires BaseInv(rows, t, node.base, node.baseSeq)
    requires forall i :: 0 <= i < |rows| ==> rows[i].marketId in t.firstSeen
    ensures m in t.firstSeen
    ensures Agrees(rows, t, node, m) <==> Backed(rows, t, node, m)
  {
    var b, n := node.baseSeq, node.mem.lastApplied;
    FoldInParts(rows, node.base, b, n, FirstSeen(m, 0), m);
    if LastIndex(rows[b..n], m) < 0 {
      assert BaseFollows(rows, t, node.base, b, m);
    }
    FoldInParts(rows, node.base, b, n, t.firstSeen[m], m);
  }

  lemma MentionedIsHeld(rows: seq<Event>, t: Trace, node: Node, i: nat)
    requires node.mem.bootstrapped && MemorySafe(rows, node) && i < node.mem.lastApplied
    requires BaseInv(rows, t, node.base, node.baseSeq)
    ensures rows[i].marketId in node.mem.markets
  {
    var m := rows[i].marketId;
    var since := rows[node.baseSeq..node.mem.lastApplied];
    FoldAt(node.base, since, m);
    if i >= node.baseSeq {
      assert since[i - node.baseSeq] == rows[i];
    }
  }

  lemma RowsSeen(cfg: CoreConfig, c: Core, t: Trace)
    requires HistoryInv(cfg, c, t)
    ensures forall i :: 0 <= i < |c.rows| ==> c.rows[i].marketId in t.firstSeen
  {
    forall i | 0 <= i < |c.rows| ensures c.rows[i].marketId in t.firstSeen {
      assert RowFollows(cfg.breaker, c.rows, t, i);
    }
  }

  /** Under every fault, a bootstrapped replica at lastApplied = n holds every market the first n log events
      mention, and agrees with their fold on a market exactly when its snapshot was clean about that market or it
      has applied an event about it since; a market they do not mention is in its first-seen state. */
  lemma ReplicaAgreesWithLog(cfg: CoreConfig, s: System, rid: nat)
    requires Reachable(cfg, [], s, SameCore) && rid in s.nodes && s.nodes[rid].mem.bootstrapped
    ensures
      var node := s.nodes[rid];
      && 0 <= node.baseSeq <= node.mem.lastApplied <= |s.core.rows|
      && (forall i :: 0 <= i < node.mem.lastApplied ==> s.core.rows[i].marketId in node.mem.markets)
      && (forall m :: m in node.mem.markets ==>
          (Agrees(s.core.rows, s.trace, node, m) <==> Backed(s.core.rows, s.trace, node, m)))
  {
    ReachableIsFaithful(cfg, s);
    RowsSeen(cfg, Settle(s.core, s.pc), s.trace);
    var node := s.nodes[rid];
    assert NodeSafe(s.core.rows, s.core.lastSeq, s.sessions, node);
    assert NodeFaithful(s.core.rows, s.trace, node);
    forall i | 0 <= i < node.mem.lastApplied ensures s.core.rows[i].marketId in node.mem.markets {
      MentionedIsHeld(s.core.rows, s.trace, node, i);
    }
    forall m | m in node.mem.markets
      ensures Agrees(s.core.rows, s.trace, node, m) <==> Backed(s.core.rows, s.trace, node, m)
    {
      MarketAgreement(s.core.rows, s.trace, node, m);
    }
  }

  /** If failed inserts store nothing, every bootstrapped replica is the fold of the log prefix it has applied: it
      agrees on every market that prefix mentions, and every other market it holds is in its first-seen OPEN
      state; over all interleavings, disconnects, restarts, failed inserts and failed replica writes. */
  lemma ReplicaIsAFold(cfg: CoreConfig, s: System, rid: nat)
    requires Reachable(cfg, [], s, Honest) && rid in s.nodes && s.nodes[rid].mem.bootstrapped
    ensures
      var node := s.nodes[rid];
      && 0 <= node.mem.lastApplied <= |s.core.rows|
      && (forall i :: 0 <= i < node.mem.lastApplied ==> s.core.rows[i].marketId in node.mem.markets)
      && (forall m :: m in node.mem.markets ==>
          && Agrees(s.core.rows, s.trace, node, m)
          && (LastIndex(s.core.rows[..node.mem.lastApplied], m) < 0 ==>
              node.mem.markets[m] == FirstSeen(m, node.mem.markets[m].lastTransition)))
  {
    HonestIsFaithful(cfg, s);
    HonestIsSameCore(cfg, s);
    ReplicaAgreesWithLog(cfg, s, rid);
    var node := s.nodes[rid];
    forall m | m in node.mem.markets
      ensures Agrees(s.core.rows, s.trace, node, m)
      ensures LastIndex(s.core.rows[..node.mem.lastApplied], m) < 0 ==>
                node.mem.markets[m] == FirstSeen(m, node.mem.markets[m].lastTransition)
    {
      AckedIsClean(s.core.rows, s.trace.acks, node.baseSeq, m);
    }
  }

  lemma HonestIsSameCore(cfg: CoreConfig, s: System)
    requires Reachable(cfg, [], s, Honest)
    ensures Reachable(cfg, [], s, SameCore)
  {
    var now, steps :| Uses(steps, Honest) && s == Run(cfg, Init(cfg, [], now), steps);
    assert Uses(steps, SameCore);
  }

  /** A replica that has caught up with an idle core holds the core's own state on every market it knows, and knows
      every market but those the core has only seen and never logged, which are still in their first-seen state. */
  lemma CaughtUpReplicaIsTheCore(cfg: CoreConfig, s: System, rid: nat, m: string)
    requires Reachable(cfg, [], s, Honest) && s.pc == Idle
    requires rid in s.nodes && s.nodes[rid].mem.bootstrapped && s.nodes[rid].mem.lastApplied == s.core.lastSeq
    ensures m in s.nodes[rid].mem.markets ==> m in s.core.markets && s.nodes[rid].mem.markets[m] == s.core.markets[m]
    ensures m in s.core.markets && m !in s.nodes[rid].mem.markets ==>
              && LastIndex(s.core.rows, m) < 0
              && s.core.markets[m] == FirstSeen(m, s.core.markets[m].lastTransition)
  {
    ReplicaIsAFold(cfg, s, rid);
    HonestSnapshotIsTheLog(cfg, s);
    HonestIsSameCore(cfg, s);
    var held := s.nodes[rid].mem.markets;
    if m in held {
      assert Agrees(s.core.rows, s.trace, s.nodes[rid], m);
    } else if m in s.core.markets {
      SnapshotAgreesWithLog(cfg, s, m);
      UnheldIsUnlogged(s.core.rows, |s.core.rows|, held, m);
      assert s.core.rows[..|s.core.rows|] == s.core.rows;
    }
  }

  lemma UnheldIsUnlogged(rows: seq<Event>, n: nat, held: map<string, MarketState>, m: string)
    requires n == |rows| && m !in held && forall i :: 0 <= i < n ==> rows[i].marketId in held
    ensures LastIndex(rows, m) < 0
  {
  }

  // ---------- The breaker, in the log ----------

  lemma BreakerLogHolds(cfg: CoreConfig, s: System)
    requires Reachable(cfg, [], s, SameCore)
    ensures BreakerHistory.BreakerLog(cfg, s.core.rows, s.trace)
  {
    ReachableIsFaithful(cfg, s);
    var settled := Settle(s.core, s.pc);
    assert HistoryInv(cfg, settled, s.trace);
    forall i: nat | i < |s.core.rows| ensures RowFollows(cfg.breaker, s.core.rows, s.trace, i) {
      assert RowFollows(cfg.breaker, settled.rows, s.trace, i);
    }
  }

  /** Per market, the acknowledged SUSPENDED and REOPENED events of the log alternate, starting with SUSPENDED; each
      reopening comes at least the cooldown after the suspension it ends. No clock order is assumed. */
  lemma LoggedTransitionsAlternate(cfg: CoreConfig, s: System, m: string)
    requires Reachable(cfg, [], s, SameCore)
    ensures forall i, k :: i < k && BreakerHistory.LoggedAs(s.core.rows, s.trace, m, i, MarketSuspended)
              && BreakerHistory.LoggedAs(s.core.rows, s.trace, m, k, MarketSuspended)
              ==> !BreakerHistory.NoReopening(s.core.rows, s.trace, m, i, k)
    ensures forall k :: BreakerHistory.LoggedAs(s.core.rows, s.trace, m, k, MarketReopened) ==>
              exists i :: i < k && BreakerHistory.LoggedAs(s.core.rows, s.trace, m, i, MarketSuspended)
                && BreakerHistory.NoReopening(s.core.rows, s.trace, m, i, k)
                && MarketOf(s.core.rows[k]).lastTransition >=
                   MarketOf(s.core.rows[i]).lastTransition + cfg.breaker.cooldown
  {
    BreakerLogHolds(cfg, s);
    BreakerHistory.TransitionsAlternate(cfg, s.core.rows, s.trace, m);
  }

  /** If failed inserts store nothing, each market's transitions in the log are SUSPENDED, REOPENED, SUSPENDED, ...
      without exception, each reopening at least the cooldown after its suspension, and the market's logged state
      shows the last of them with the deadline it set. */
  lemma HonestTransitionsAlternate(cfg: CoreConfig, s: System, m: string)
    requires Reachable(cfg, [], s, Honest) && m in s.trace.firstSeen
    ensures
      var n := |s.core.rows|;
      var transitions := BreakerHistory.Transitions(s.core.rows, m);
      && BreakerHistory.Alternate(cfg.breaker.cooldown, transitions)
      && BreakerHistory.LeftBy(cfg.breaker.cooldown, transitions, LogValue(s.trace.firstSeen[m], s.core.rows, n, m))
  {
    HonestIsFaithful(cfg, s);
    HonestIsSameCore(cfg, s);
    BreakerLogHolds(cfg, s);
    assert s.core.rows[..|s.core.rows|] == s.core.rows;
    BreakerHistory.AcknowledgedTransitions(cfg, s.core.rows, s.trace, m, |s.core.rows|);
  }

  /** While a market stays suspended its deadline and transition time never move. */
  lemma DeadlineNeverMoves(cfg: CoreConfig, s: System, m: string, i: int, k: int)
    requires Reachable(cfg, [], s, SameCore)
    requires BreakerHistory.LoggedAs(s.core.rows, s.trace, m, i, MarketSuspended)
    requires BreakerHistory.LoggedAs(s.core.rows, s.trace, m, k, MarketUpdated) && i < k
    requires BreakerHistory.NoReopening(s.core.rows, s.trace, m, i, k)
    ensures
      var suspension, update := MarketOf(s.core.rows[i]), MarketOf(s.core.rows[k]);
      && update.status == Suspended
      && update.cooldownUntil == suspension.cooldownUntil == suspension.lastTransition + cfg.breaker.cooldown
      && update.lastTransition == suspension.lastTransition
  {
    BreakerLogHolds(cfg, s);
    BreakerHistory.SuspensionEpisode(cfg, s.core.rows, s.trace, m, i, k);
  }
}
