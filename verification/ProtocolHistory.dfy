/** What every step keeps when the core starts from an empty log: the core's markets, its snapshots and the
    snapshots replicas start from are all accounted for by the log. */
module ProtocolHistory {
  import opened Domain
  import opened SignalWindow
  import opened CoreState
  import opened CoreHistory
  import opened ReplicaState
  import opened Protocol
  import opened ProtocolSafety
  import opened ReplicaSafety

  /** The core with a persisted but still unassigned event taken into account. */
  function Settle(core: Core, pc: Pc): Core {
    if pc.Persisted? || pc.Announced? then Assign(core, pc.evt) else core
  }

  ghost predicate NodeFaithful(rows: seq<Event>, t: Trace, node: Node) {
    && (node.mem.bootstrapped ==> BaseInv(rows, t, node.base, node.baseSeq))
    && (node.phase.GotSnapshot? ==> BaseInv(rows, t, node.phase.snapshot.markets, node.phase.snapshot.lastSeq))
  }

  ghost predicate Faithful(cfg: CoreConfig, s: System) {
    && HistoryInv(cfg, Settle(s.core, s.pc), s.trace)
    && (forall rid :: rid in s.nodes ==> NodeFaithful(s.core.rows, s.trace, s.nodes[rid]))
  }

  lemma CoreStepFaithful(cfg: CoreConfig, s: System, s': System)
    requires Safe(s) && Faithful(cfg, s)
    requires HistoryInv(cfg, Settle(s'.core, s'.pc), s'.trace)
    requires Grows(s.core.rows, s.trace, s'.core.rows, s'.trace) && s'.nodes == s.nodes
    ensures Faithful(cfg, s')
  {
    forall rid | rid in s'.nodes ensures NodeFaithful(s'.core.rows, s'.trace, s'.nodes[rid]) {
      var node := s.nodes[rid];
      assert NodeFaithful(s.core.rows, s.trace, node);
      if node.mem.bootstrapped {
        BaseStable(s.core.rows, s.trace, s'.core.rows, s'.trace, node.base, node.baseSeq);
      }
      if node.phase.GotSnapshot? {
        var snapshot := node.phase.snapshot;
        BaseStable(s.core.rows, s.trace, s'.core.rows, s'.trace, snapshot.markets, snapshot.lastSeq);
      }
    }
  }

  lemma IngestHistory(cfg: CoreConfig, s: System, marketId: string, point: SignalPoint, now: int)
    requires cfg.defaultMarket != "" && CoreSafe(s) && s.pc == Idle && HistoryInv(cfg, s.core, s.trace)
    ensures
      var s' := DoIngest(cfg, s, marketId, point, now);
      HistoryInv(cfg, s'.core, s'.trace) && Grows(s.core.rows, s.trace, s'.core.rows, s'.trace)
  {
    var s' := DoIngest(cfg, s, marketId, point, now);
    IngestStep(cfg, s.core, marketId, point, now);
    SignalKeepsHistory(cfg, s.core, s.trace, Resolve(cfg, marketId), now, s'.core, s'.trace);
  }

  lemma ClearHistory(cfg: CoreConfig, s: System, marketId: string, now: int)
    requires cfg.defaultMarket != "" && CoreSafe(s) && s.pc == Idle && HistoryInv(cfg, s.core, s.trace)
    ensures
      var s' := DoClear(cfg, s, marketId, now);
      HistoryInv(cfg, s'.core, s'.trace) && Grows(s.core.rows, s.trace, s'.core.rows, s'.trace)
  {
    var s' := DoClear(cfg, s, marketId, now);
    ClearStep(cfg, s.core, marketId, now);
    SignalKeepsHistory(cfg, s.core, s.trace, Resolve(cfg, marketId), now, s'.core, s'.trace);
  }

  lemma IngestFaithful(cfg: CoreConfig, s: System, marketId: string, point: SignalPoint, now: int)
    requires cfg.defaultMarket != "" && Safe(s) && Faithful(cfg, s)
    ensures Faithful(cfg, DoIngest(cfg, s, marketId, point, now))
  {
    if s.pc == Idle {
      IngestHistory(cfg, s, marketId, point, now);
      CoreStepFaithful(cfg, s, DoIngest(cfg, s, marketId, point, now));
    }
  }

  lemma ClearFaithful(cfg: CoreConfig, s: System, marketId: string, now: int)
    requires cfg.defaultMarket != "" && Safe(s) && Faithful(cfg, s)
    ensures Faithful(cfg, DoClear(cfg, s, marketId, now))
  {
    if s.pc == Idle {
      ClearHistory(cfg, s, marketId, now);
      CoreStepFaithful(cfg, s, DoClear(cfg, s, marketId, now));
    }
  }

  lemma AttemptGrows(cfg: CoreConfig, c: Core, t: Trace, now: int, choice: Choice)
    requires LogInv(c) && MarketsInv(c) && choice.marketId != "" && t.firstSeen.Keys == c.markets.Keys
    ensures Grows(c.rows, t, Attempt(cfg, c, now, choice).0.rows, TraceAttempt(cfg, c, t, now, choice))
  {
    AttemptStep(cfg, c, now, choice);
  }

  lemma EvaluateFaithful(cfg: CoreConfig, s: System, choice: Choice)
    requires Safe(s) && Faithful(cfg, s)
    ensures Faithful(cfg, DoEvaluate(cfg, s, choice))
  {
    if s.pc.Ticking? && choice.marketId in s.pc.remaining {
      var s' := DoEvaluate(cfg, s, choice);
      EvaluateKeepsHistory(cfg, s.core, s.trace, s.pc.now, choice);
      AttemptGrows(cfg, s.core, s.trace, s.pc.now, choice);
      assert Settle(s'.core, s'.pc) == EvaluateMarket(cfg, s.core, s.pc.now, choice);
      CoreStepFaithful(cfg, s, s');
    }
  }

  /** Frames never change what a replica was bootstrapped from. */
  lemma DeliverKeepsBase(node: Node, evt: Event, faults: Faults)
    requires node.phase.Reading?
    ensures
      var node' := Deliver(node, evt, faults);
      && node'.base == node.base && node'.baseSeq == node.baseSeq
      && node'.mem.bootstrapped == node.mem.bootstrapped && !node'.phase.GotSnapshot?
  {
  }

  /** Only a completed refresh does, and then to the snapshot it was given. */
  lemma InstallSetsBase(node: Node, write: WriteOutcome)
    requires node.phase.GotSnapshot?
    ensures
      var node' := Install(node, write);
      var snapshot := node.phase.snapshot;
      && !node'.phase.GotSnapshot?
      && ((node'.base == snapshot.markets && node'.baseSeq == snapshot.lastSeq) ||
          (node'.base == node.base && node'.baseSeq == node.baseSeq && node'.mem.bootstrapped == node.mem.bootstrapped))
  {
  }

  lemma DeliverNextFaithful(s: System, t: Trace, node: Node, faults: Faults)
    requires NodeFaithful(s.core.rows, t, node)
    ensures NodeFaithful(s.core.rows, t, DeliverNext(s, node, faults))
  {
    if NextFrame(s, node).Some? {
      DeliverKeepsBase(node, NextFrame(s, node).value, faults);
    }
  }

  lemma InstallFaithful(rows: seq<Event>, t: Trace, node: Node, write: WriteOutcome)
    requires NodeFaithful(rows, t, node) && node.phase.GotSnapshot?
    ensures NodeFaithful(rows, t, Install(node, write))
  {
    InstallSetsBase(node, write);
  }

  lemma NodeStepFaithful(s: System, node: Node, deed: NodeAction)
    requires NodeFaithful(s.core.rows, s.trace, node)
    requires deed.ServeSnapshot? && s.pc == Idle ==> BaseInv(s.core.rows, s.trace, s.core.markets, s.core.lastSeq)
    ensures NodeFaithful(s.core.rows, s.trace, NodeStep(s, node, deed))
  {
    match deed
    case InstallSnapshot(write) =>
      if node.phase.GotSnapshot? {
        InstallFaithful(s.core.rows, s.trace, node, write);
      }
    case DeliverFrame(faults) =>
      DeliverNextFaithful(s, s.trace, node, faults);
    case _ =>
  }

  lemma NodesFaithful(cfg: CoreConfig, s: System, rid: nat, deed: NodeAction)
    requires Safe(s) && Faithful(cfg, s)
    ensures Faithful(cfg, DoNode(s, rid, deed))
  {
    if rid in s.nodes {
      assert NodeFaithful(s.core.rows, s.trace, s.nodes[rid]);
      if s.pc == Idle {
        SnapshotAgreement(cfg, s.core, s.trace);
      }
      NodeStepFaithful(s, s.nodes[rid], deed);
    }
  }

  lemma AssignFaithful(cfg: CoreConfig, s: System)
    requires Safe(s) && Faithful(cfg, s)
    ensures Faithful(cfg, DoAssign(s))
  {
    var s' := DoAssign(s);
    assert Settle(s'.core, s'.pc) == Settle(s.core, s.pc);
  }

  lemma BroadcastFaithful(cfg: CoreConfig, s: System)
    requires Faithful(cfg, s)
    ensures Faithful(cfg, DoBroadcast(s))
  {
  }

  lemma CoreFaithful(cfg: CoreConfig, s: System, act: CoreAction)
    requires !act.RestartCore? && cfg.defaultMarket != "" && Safe(s) && Faithful(cfg, s)
    ensures Faithful(cfg, DoCore(cfg, s, act))
  {
    match act
    case IngestSignal(marketId, point, now) => IngestFaithful(cfg, s, marketId, point, now);
    case ClearSignals(marketId, now) => ClearFaithful(cfg, s, marketId, now);
    case EvaluateNext(choice) => EvaluateFaithful(cfg, s, choice);
    case BroadcastEvent => BroadcastFaithful(cfg, s);
    case AssignMarket => AssignFaithful(cfg, s);
    case BeginTick(_) =>
    case EndTick =>
  }

  lemma OpenStreamFaithful(cfg: CoreConfig, s: System, rid: nat, sid: nat)
    requires Faithful(cfg, s)
    ensures Faithful(cfg, DoOpenStream(s, rid, sid))
  {
    var s' := DoOpenStream(s, rid, sid);
    forall r | r in s'.nodes ensures NodeFaithful(s'.core.rows, s'.trace, s'.nodes[r]) {
      assert NodeFaithful(s.core.rows, s.trace, s.nodes[r]);
    }
  }

  /** The core is not restarted: a restart does not rebuild its markets from the log. */
  predicate SameCore(step: Step) {
    !(step.CoreDoes? && step.act.RestartCore?)
  }

  lemma StepFaithful(cfg: CoreConfig, s: System, step: Step)
    requires SameCore(step) && cfg.defaultMarket != "" && Safe(s) && Faithful(cfg, s)
    ensures Faithful(cfg, Do(cfg, s, step))
  {
    match step
    case CoreDoes(act) => CoreFaithful(cfg, s, act);
    case OpenStream(rid, sid) => OpenStreamFaithful(cfg, s, rid, sid);
    case NodeDoes(rid, deed) => NodesFaithful(cfg, s, rid, deed);
    case OpenSession(_, _) =>
    case SessionDoes(_, _) =>
    case AddNode(_) =>
  }

  lemma {:induction false} RunsAreFaithful(cfg: CoreConfig, now: int, steps: seq<Step>)
    requires cfg.defaultMarket != "" && forall i :: 0 <= i < |steps| ==> SameCore(steps[i])
    ensures Safe(Run(cfg, Init(cfg, [], now), steps)) && Faithful(cfg, Run(cfg, Init(cfg, [], now), steps))
  {
    RunsAreSafe(cfg, [], now, steps);
    if steps == [] {
    } else {
      RunsAreFaithful(cfg, now, steps[..|steps| - 1]);
      StepFaithful(cfg, Run(cfg, Init(cfg, [], now), steps[..|steps| - 1]), steps[|steps| - 1]);
    }
  }
}
