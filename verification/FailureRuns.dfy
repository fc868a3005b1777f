/** Runs in which a failed insert has an effect: one bet on one market, and what the database makes of it. */
module FailureRuns {
  import opened Domain
  import opened Breaker
  import opened SignalWindow
  import opened EventLog
  import opened CoreState
  import opened Stream
  import opened ReplicaState
  import opened Protocol
  import opened TickRuns
  import opened ReplicaRuns
  import opened ProtocolTheorems
  import opened CatchUpRuns

  const ONE_BET_CONFIG := CoreConfig(BreakerConfig(1, 1000, 60), 30, "m")
  const ONE_BET := SignalPoint(10, 1, 0, 0)

  /** The row is stored, the insert reports failure; the resync read works, or fails too. */
  function StoredFailure(resync: bool): Choice {
    Choice("m", "e", 10, FailsStored, resync)
  }

  /** Nothing is stored, and the resync read works. */
  const CLEAN_FAILURE := Choice("m", "f", 10, FailsClean, true)

  /** The core with its bet, before any tick. */
  function OneBetCore(): Core {
    Core([], 0, map["m" := FirstSeen("m", 0)], map["m" := [ONE_BET]])
  }

  /** The row the first tick tries to persist. */
  function FirstRow(): Event {
    NewEvent(OneBetCore(), Decide(ONE_BET_CONFIG, OneBetCore(), "m", 10), StoredFailure(true))
  }

  /** The same core with that row in its log, counted or not. */
  function AfterFailure(lastSeq: int): Core {
    OneBetCore().(rows := [FirstRow()], lastSeq := lastSeq)
  }

  lemma OneBetKept()
    ensures Keep([ONE_BET], -20) == [ONE_BET]
  {
    KeepAppend([], ONE_BET, -20);
    assert [] + [ONE_BET] == [ONE_BET];
  }

  lemma OneBetIngested()
    ensures Ingest(ONE_BET_CONFIG, NewCore(ONE_BET_CONFIG, [], 0), "m", ONE_BET, 10) == OneBetCore()
  {
    OneBetKept();
    assert [] + [ONE_BET] == [ONE_BET];
  }

  lemma OneBetSuspends()
    ensures
      var row := FirstRow();
      && MarketOf(row).status == Suspended && WellFormed(row)
      && row.seqNo == 1 && row.id == "e" && row.marketId == "m"
  {
    OneBetKept();
    assert [ONE_BET][..0] == [];
    assert Sum([ONE_BET]) == WindowMetrics(1, 0, 0);
  }

  /** An evaluation that changes nothing but what its failed insert does. */
  lemma FailedEvaluation(cfg: CoreConfig, c: Core, now: int, choice: Choice, evt: Event, rows: seq<Event>)
    requires Prepare(cfg, c, choice.marketId, now) == c && choice.marketId in c.markets
    requires evt == NewEvent(c, Decide(cfg, c, choice.marketId, now), choice)
    requires c.markets[choice.marketId] != MarketOf(evt)
    requires TableInsert(c.rows, evt, choice.outcome) == (rows, false)
    ensures EvaluateMarket(cfg, c, now, choice) ==
            c.(rows := rows, lastSeq := if choice.resync then MaxSeq(rows) else c.lastSeq)
    ensures Sent(cfg, c, now, choice) == []
  {
  }

  /** Any log beside the one bet: preparing the market changes nothing, and the verdict is that of the first row. */
  lemma OneBetPrepared(c: Core)
    requires c.markets == OneBetCore().markets && c.windows == OneBetCore().windows
    ensures Prepare(ONE_BET_CONFIG, c, "m", 10) == c
    ensures Decide(ONE_BET_CONFIG, c, "m", 10) == Decide(ONE_BET_CONFIG, OneBetCore(), "m", 10)
  {
    OneBetKept();
    assert WindowOf(c, "m") == [ONE_BET];
    assert c.windows["m" := [ONE_BET]] == c.windows;
    assert EnsureMarket(c, "m", 10) == c;
  }

  lemma StoredInEmpty(evt: Event)
    ensures TableInsert([], evt, FailsStored) == ([evt], false)
  {
    assert [] + [evt] == [evt];
  }

  /** The first tick stores its row and fails. */
  lemma FirstEvaluation(resync: bool)
    ensures EvaluateMarket(ONE_BET_CONFIG, OneBetCore(), 10, StoredFailure(resync)) ==
            AfterFailure(if resync then 1 else 0)
    ensures Sent(ONE_BET_CONFIG, OneBetCore(), 10, StoredFailure(resync)) == []
  {
    OneBetPrepared(OneBetCore());
    OneBetSuspends();
    StoredInEmpty(FirstRow());
    FailedEvaluation(ONE_BET_CONFIG, OneBetCore(), 10, StoredFailure(resync), FirstRow(), [FirstRow()]);
  }

  /** A second one at the same time, while the row is not counted, stores nothing. */
  lemma SecondEvaluation()
    ensures EvaluateMarket(ONE_BET_CONFIG, AfterFailure(0), 10, CLEAN_FAILURE) == AfterFailure(1)
  {
    var c := AfterFailure(0);
    OneBetPrepared(c);
    OneBetSuspends();
    var evt := NewEvent(c, Decide(ONE_BET_CONFIG, c, "m", 10), CLEAN_FAILURE);
    FailedEvaluation(ONE_BET_CONFIG, c, 10, CLEAN_FAILURE, evt, c.rows);
  }

  /** A tick of a core that knows one market. */
  lemma OneMarketTick(s: System, choice: Choice)
    requires s.pc == Idle && MarketIds(s.core) == {choice.marketId}
    ensures
      var s' := Run(ONE_BET_CONFIG, s, TickSteps(10, [choice]));
      && s'.pc == Idle && s'.nodes == s.nodes && s'.sessions.Keys == s.sessions.Keys
      && s'.sent == s.sent + Sent(ONE_BET_CONFIG, s.core, 10, choice)
      && s'.core == EvaluateMarket(ONE_BET_CONFIG, s.core, 10, choice)
  {
    assert [choice][0].marketId == choice.marketId;
    TickIsARun(ONE_BET_CONFIG, s, 10, [choice]);
    assert [choice][..0] == [];
  }

  /** An idle system with this core and nobody else. */
  predicate Alone(s: System, core: Core) {
    s.pc == Idle && s.core == core && s.sent == [] && s.nodes == map[] && s.sessions == map[]
  }

  lemma SilentTick(s: System, choice: Choice, core: Core, core': Core)
    requires Alone(s, core) && MarketIds(core) == {choice.marketId}
    requires EvaluateMarket(ONE_BET_CONFIG, core, 10, choice) == core' && Sent(ONE_BET_CONFIG, core, 10, choice) == []
    ensures Alone(Run(ONE_BET_CONFIG, s, TickSteps(10, [choice])), core')
  {
    OneMarketTick(s, choice);
  }

  lemma BetTaken(s: System)
    requires s == Init(ONE_BET_CONFIG, [], 0)
    ensures Alone(Do(ONE_BET_CONFIG, s, CoreDoes(IngestSignal("m", ONE_BET, 10))), OneBetCore())
  {
    OneBetIngested();
  }

  /** One signal, then a tick whose only insert stores its row and reports failure. */
  function StoredFailureRun(resync: bool): seq<Step> {
    [CoreDoes(IngestSignal("m", ONE_BET, 10))] + TickSteps(10, [StoredFailure(resync)])
  }

  lemma StoredFailureEnds(resync: bool)
    ensures Alone(Run(ONE_BET_CONFIG, Init(ONE_BET_CONFIG, [], 0), StoredFailureRun(resync)),
                  AfterFailure(if resync then 1 else 0))
  {
    var s, ingest := Init(ONE_BET_CONFIG, [], 0), CoreDoes(IngestSignal("m", ONE_BET, 10));
    RunConcat(ONE_BET_CONFIG, s, [ingest], TickSteps(10, [StoredFailure(resync)]));
    RunOne(ONE_BET_CONFIG, s, ingest);
    BetTaken(s);
    FirstEvaluation(resync);
    var core' := AfterFailure(if resync then 1 else 0);
    SilentTick(Do(ONE_BET_CONFIG, s, ingest), StoredFailure(resync), OneBetCore(), core');
  }

  /** Then the core is idle with lastSeq 1 although its market never moved: the snapshot says OPEN where the log it
      is numbered by says SUSPENDED. */
  lemma StoredFailureBreaksSnapshot()
    ensures
      var s := Run(ONE_BET_CONFIG, Init(ONE_BET_CONFIG, [], 0), StoredFailureRun(true));
      && s.pc == Idle && s.core.lastSeq == |s.core.rows| == 1
      && s.core.markets == OneBetCore().markets && s.core.markets["m"].status == Open
      && MarketOf(s.core.rows[0]).status == Suspended
  {
    StoredFailureEnds(true);
    OneBetSuspends();
  }

  /** An insert that stores nothing can move lastSeq too: if the resync after a stored failure fails, the row waits,
      and the next failure whose resync works counts it. */
  lemma CleanFailureMovesSequence()
    ensures
      var before := Run(ONE_BET_CONFIG, Init(ONE_BET_CONFIG, [], 0), StoredFailureRun(false));
      var after := Run(ONE_BET_CONFIG, before, TickSteps(10, [CLEAN_FAILURE]));
      && before.core.lastSeq == 0 && after.core.lastSeq == 1
      && after.core.rows == before.core.rows && after.core.markets == before.core.markets
  {
    StoredFailureEnds(false);
    OneMarketTick(Run(ONE_BET_CONFIG, Init(ONE_BET_CONFIG, [], 0), StoredFailureRun(false)), CLEAN_FAILURE);
    SecondEvaluation();
  }

  // ---------- A bootstrap that is refused ----------

  /** A new replica. */
  function NewNode(): Node {
    Node(NewReplica(map[], 0), Ready, map[], 0)
  }

  /** The same one bootstrapped before the first event. */
  function BootstrappedNode(): Node {
    var markets := OneBetCore().markets;
    Node(Replica(map[], 0, markets, map[], 0, 0, true), Ready, markets, 0)
  }

  /** The same one restarted after it applied the row the core does not count. */
  function RestartedNode(): Node {
    Node(NewReplica(map["e" := 1], 1), Ready, map[], 0)
  }

  /** A session that has written that row. */
  function RowSession(): Session {
    LoadedSession(NewSession(1, 0), [FirstRow()])
  }

  function Reader(): Node {
    BootstrappedNode().(phase := Reading(0, 0))
  }

  /** The replica reads the row and restarts. */
  function ReadAndRestart(): seq<Step> {
    [OpenStream(0, 0)] + [SessionDoes(0, LoadBacklog)] + [NodeDoes(0, DeliverFrame(Faults(true, Done)))] +
    [NodeDoes(0, NodeAction.Restart)]
  }

  function LateReplica(): seq<Step> {
    [AddNode(0)] + BootstrapSteps(0, Done) + ReadAndRestart() + BootstrapSteps(0, Done)
  }

  /** A replica added and bootstrapped while the core has announced nothing. */
  lemma FirstBootstrap(s: System)
    requires s.pc == Idle && s.nodes == map[] && s.core.lastSeq == 0 && s.core.markets == OneBetCore().markets
    ensures Run(ONE_BET_CONFIG, s, [AddNode(0)] + BootstrapSteps(0, Done)) == s.(nodes := map[0 := BootstrappedNode()])
  {
    RunConcat(ONE_BET_CONFIG, s, [AddNode(0)], BootstrapSteps(0, Done));
    RunOne(ONE_BET_CONFIG, s, AddNode(0));
    var added := s.(nodes := map[0 := NewNode()]);
    assert DoAddNode(s, 0).nodes == added.nodes;
    BootstrapIsARun(ONE_BET_CONFIG, added, 0, Done);
    assert Refreshed(added, 0, Done).nodes == map[0 := BootstrappedNode()];
  }

  lemma RowWritten()
    ensures RowSession().cur.written == [FirstRow()] && RowSession().fromSeq == 1
  {
    OneBetSuspends();
    assert [FirstRow()][..0] == [];
    WriteAllAppends(Cursor(1, []), From([FirstRow()], 1));
  }

  lemma RowRead()
    ensures
      var r := Deliver(Reader(), FirstRow(), Faults(true, Done)).mem;
      r.applied == map["e" := 1] && r.checkpoint == 1
  {
    OneBetSuspends();
    ValidatorsAcceptWellFormed(FirstRow());
  }

  lemma RowDelivered(s: System)
    requires s.nodes == map[0 := Reader()] && s.sessions == map[0 := RowSession()]
    ensures
      var s' := DoNode(DoNode(s, 0, DeliverFrame(Faults(true, Done))), 0, NodeAction.Restart);
      s' == s.(nodes := map[0 := RestartedNode()])
  {
    RowWritten();
    RowRead();
    var read := Deliver(Reader(), FirstRow(), Faults(true, Done));
    assert NextFrame(s, Reader()) == Some(FirstRow());
    assert s.nodes[0 := read][0 := RestartedNode()] == map[0 := RestartedNode()];
  }

  lemma Opened(s: System)
    requires Alone(s.(nodes := map[]), AfterFailure(0)) && s.nodes == map[0 := BootstrappedNode()]
    ensures
      DoSession(DoOpenStream(s, 0, 0), 0, LoadBacklog) ==
        s.(nodes := map[0 := Reader()], sessions := map[0 := RowSession()])
  {
    var open := DoOpenStream(s, 0, 0);
    assert open.nodes == map[0 := Reader()] && open.sessions == map[0 := NewSession(1, 0)];
    assert open.sessions[0 := RowSession()] == map[0 := RowSession()];
  }

  lemma RowReadAndForgotten(s: System)
    requires Alone(s.(nodes := map[]), AfterFailure(0)) && s.nodes == map[0 := BootstrappedNode()]
    ensures Run(ONE_BET_CONFIG, s, ReadAndRestart()) ==
            s.(nodes := map[0 := RestartedNode()], sessions := map[0 := RowSession()])
  {
    var cfg := ONE_BET_CONFIG;
    var a, b := OpenStream(0, 0), SessionDoes(0, LoadBacklog);
    var c, d := NodeDoes(0, DeliverFrame(Faults(true, Done))), NodeDoes(0, NodeAction.Restart);
    RunMore(cfg, s, [a] + [b] + [c], d);
    RunMore(cfg, s, [a] + [b], c);
    RunMore(cfg, s, [a], b);
    RunOne(cfg, s, a);
    Opened(s);
    RowDelivered(s.(nodes := map[0 := Reader()], sessions := map[0 := RowSession()]));
  }

  lemma SecondBootstrap(s: System)
    requires s.pc == Idle && s.core == AfterFailure(0) && s.nodes == map[0 := RestartedNode()]
    ensures Run(ONE_BET_CONFIG, s, BootstrapSteps(0, Done)) == s
  {
    BootstrapIsARun(ONE_BET_CONFIG, s, 0, Done);
    assert Refreshed(s, 0, Done).nodes == s.nodes;
  }

  /** A replica that applied a row its core does not count yet, and then restarted, is refused its bootstrap: the
      snapshot is numbered 0 and its checkpoint is 1. */
  lemma BootstrapRefused()
    ensures
      var before := Run(ONE_BET_CONFIG, Init(ONE_BET_CONFIG, [], 0), StoredFailureRun(false));
      var s := Run(ONE_BET_CONFIG, before, LateReplica());
      && s.pc == Idle && s.nodes == map[0 := RestartedNode()]
      && s.nodes[0].mem.checkpoint == 1 && s.core.lastSeq == 0
  {
    var cfg := ONE_BET_CONFIG;
    var before := Run(cfg, Init(cfg, [], 0), StoredFailureRun(false));
    StoredFailureEnds(false);
    RunConcat(cfg, before, [AddNode(0)] + BootstrapSteps(0, Done) + ReadAndRestart(), BootstrapSteps(0, Done));
    RunConcat(cfg, before, [AddNode(0)] + BootstrapSteps(0, Done), ReadAndRestart());
    FirstBootstrap(before);
    RowReadAndForgotten(before.(nodes := map[0 := BootstrappedNode()]));
    SecondBootstrap(before.(nodes := map[0 := RestartedNode()], sessions := map[0 := RowSession()]));
  }

  // ---------- A replica that stays behind ----------

  const SUCCESS := Choice("m", "e", 10, Succeeds, false)

  /** The core after a tick whose insert succeeds. */
  function AfterSuccess(): Core {
    AfterFailure(1).(markets := map["m" := MarketOf(FirstRow())])
  }

  lemma SuccessfulEvaluation()
    ensures EvaluateMarket(ONE_BET_CONFIG, OneBetCore(), 10, SUCCESS) == AfterSuccess()
  {
    OneBetPrepared(OneBetCore());
    OneBetSuspends();
    AcceptedInEmpty(ONE_BET_CONFIG, OneBetCore(), 10, SUCCESS, FirstRow());
    assert OneBetCore().markets["m" := MarketOf(FirstRow())] == map["m" := MarketOf(FirstRow())];
  }

  /** An evaluation whose insert succeeds in an empty log. */
  lemma AcceptedInEmpty(cfg: CoreConfig, c: Core, now: int, choice: Choice, evt: Event)
    requires Prepare(cfg, c, choice.marketId, now) == c && choice.marketId in c.markets && c.rows == []
    requires evt == NewEvent(c, Decide(cfg, c, choice.marketId, now), choice)
    requires c.markets[choice.marketId] != MarketOf(evt) && choice.outcome == Succeeds
    ensures EvaluateMarket(cfg, c, now, choice) ==
            c.(rows := [evt], lastSeq := evt.seqNo, markets := c.markets[choice.marketId := MarketOf(evt)])
  {
    assert [] + [evt] == [evt];
  }

  function BetAndTick(): seq<Step> {
    [CoreDoes(IngestSignal("m", ONE_BET, 10))] + TickSteps(10, [SUCCESS])
  }

  lemma BetAndTickRun(s: System)
    requires s == Init(ONE_BET_CONFIG, [], 0).(nodes := map[0 := BootstrappedNode()])
    ensures
      var s' := Run(ONE_BET_CONFIG, s, BetAndTick());
      s'.pc == Idle && s'.core == AfterSuccess() && s'.nodes == s.nodes && s'.sessions == map[]
  {
    var ingest := CoreDoes(IngestSignal("m", ONE_BET, 10));
    RunConcat(ONE_BET_CONFIG, s, [ingest], TickSteps(10, [SUCCESS]));
    RunOne(ONE_BET_CONFIG, s, ingest);
    OneBetIngested();
    OneMarketTick(Do(ONE_BET_CONFIG, s, ingest), SUCCESS);
    SuccessfulEvaluation();
  }

  /** The replica after its commit of the row took effect unreported. */
  function HalfAppliedNode(): Node {
    var node := BootstrappedNode();
    node.(mem := node.mem.(applied := map["e" := 1], checkpoint := 1))
  }

  function ReadUnreported(): seq<Step> {
    [OpenStream(0, 0)] + [SessionDoes(0, LoadBacklog)] + [NodeDoes(0, DeliverFrame(Faults(true, DoneUnreported)))]
  }

  lemma RowHalfRead()
    ensures Deliver(Reader(), FirstRow(), Faults(true, DoneUnreported)) == HalfAppliedNode()
  {
    OneBetSuspends();
    ValidatorsAcceptWellFormed(FirstRow());
  }

  lemma ReadUnreportedRun(s: System)
    requires s.pc == Idle && s.core == AfterSuccess() && s.nodes == map[0 := BootstrappedNode()] && s.sessions == map[]
    ensures
      var s' := Run(ONE_BET_CONFIG, s, ReadUnreported());
      s'.pc == Idle && s'.core == s.core && s'.nodes == map[0 := HalfAppliedNode()] && s'.sessions.Keys == {0}
  {
    var cfg := ONE_BET_CONFIG;
    var a, b := OpenStream(0, 0), SessionDoes(0, LoadBacklog);
    var c := NodeDoes(0, DeliverFrame(Faults(true, DoneUnreported)));
    RunMore(cfg, s, [a] + [b], c);
    SessionOpens(cfg, s, 0, 0);
    var ready := Run(cfg, s, [a] + [b]);
    var sess := LoadedSession(NewSession(1, |s.sent|), [FirstRow()]);
    assert ready.nodes == map[0 := Reader()] && ready.sessions == map[0 := sess];
    RowBacklog();
    assert NextFrame(ready, Reader()) == Some(FirstRow());
    RowHalfRead();
    assert ready.nodes[0 := HalfAppliedNode()] == map[0 := HalfAppliedNode()];
  }

  lemma RowBacklog()
    ensures AfterBacklog(1, [FirstRow()]).written == [FirstRow()]
  {
    OneBetSuspends();
    BacklogWrites([FirstRow()], 0);
  }

  /** Up to a replica whose commit of the newest event took effect unreported. */
  function StuckRun(): seq<Step> {
    [AddNode(0)] + BootstrapSteps(0, Done) + BetAndTick() + ReadUnreported()
  }

  lemma StuckRunEnds()
    ensures
      var s := Run(ONE_BET_CONFIG, Init(ONE_BET_CONFIG, [], 0), StuckRun());
      s.pc == Idle && s.core == AfterSuccess() && s.nodes == map[0 := HalfAppliedNode()] && s.sessions.Keys == {0}
  {
    var cfg, s := ONE_BET_CONFIG, Init(ONE_BET_CONFIG, [], 0);
    RunConcat(cfg, s, [AddNode(0)] + BootstrapSteps(0, Done) + BetAndTick(), ReadUnreported());
    RunConcat(cfg, s, [AddNode(0)] + BootstrapSteps(0, Done), BetAndTick());
    FirstBootstrap(s);
    var early := s.(nodes := map[0 := BootstrappedNode()]);
    BetAndTickRun(early);
    ReadUnreportedRun(Run(cfg, early, BetAndTick()));
  }

  /** Such a replica is one behind an idle core, and an undisturbed round leaves it there. */
  lemma StuckReplicaStaysBehind()
    ensures
      var s := Run(ONE_BET_CONFIG, Init(ONE_BET_CONFIG, [], 0), StuckRun());
      var s' := Run(ONE_BET_CONFIG, s, UndisturbedRound(0, 1, 1));
      && s.core.lastSeq == 1 && 0 in s.nodes && s.nodes[0].mem.lastApplied == 0
      && s'.core.lastSeq == 1 && 0 in s'.nodes && s'.nodes[0].mem.lastApplied == 0
  {
    var s := Run(ONE_BET_CONFIG, Init(ONE_BET_CONFIG, [], 0), StuckRun());
    StuckRunEnds();
    OneBetSuspends();
    assert Uses(StuckRun(), Anything);
    assert Reachable(ONE_BET_CONFIG, [], s, Anything);
    RoundCatchesUp(ONE_BET_CONFIG, [], s, 0, 1, 1);
  }
}
