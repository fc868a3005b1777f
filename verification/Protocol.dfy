/** The whole system as a transition system: one core, any number of stream sessions and replicas.
    A step that is not enabled does nothing, so every sequence of steps is a run. */
module Protocol {
  import opened Domain
  import opened SignalWindow
  import opened CoreState
  import opened CoreHistory
  import opened Hub
  import opened Stream
  import opened ReplicaState

  /** Where the tick loop is. The mutex is held except when Idle; sessions can run at any of these points. */
  datatype Pc =
    | Idle
    | Ticking(now: int, remaining: set<string>)
    | Persisted(now: int, remaining: set<string>, evt: Event)   // stored, not yet broadcast
    | Announced(now: int, remaining: set<string>, evt: Event)   // broadcast, not yet assigned

  datatype SessionPhase = Subscribed | Streaming | Ended

  /** What a session has met: the broadcasts before it subscribed, the log its backlog read found, its live wake-ups
      with the log each of them could read, and the events its channel took. */
  datatype Past = Past(joined: nat, start: seq<Event>, wakes: seq<Wake>, offered: seq<Event>)

  /** A stream session: its channel, the live event it has taken out of it, and its cursor; its past is a history
      variable. */
  datatype Session =
    Session(fromSeq: int, phase: SessionPhase, cur: Cursor, chan: Chan, pending: Option<Event>, past: Past)

  /** Where the replica's main loop is; Reading counts the frames taken from its session. */
  datatype NodePhase = Ready | AwaitSnapshot | GotSnapshot(snapshot: Snapshot) | Reading(sid: nat, read: nat)

  /** A replica, with the snapshot it was last bootstrapped from kept beside it. */
  datatype Node = Node(mem: Replica, phase: NodePhase, base: map<string, MarketState>, baseSeq: int)

  /** The system; trace, announced (the last number broadcast) and sent (every broadcast) are history variables. */
  datatype System = System(
    core: Core,
    trace: Trace,
    pc: Pc,
    announced: int,
    sent: seq<Event>,
    sessions: map<nat, Session>,
    nodes: map<nat, Node>)

  datatype CoreAction =
    | IngestSignal(marketId: string, point: SignalPoint, now: int)
    | ClearSignals(marketId: string, now: int)
    | BeginTick(now: int)
    | EvaluateNext(choice: Choice)
    | BroadcastEvent
    | AssignMarket
    | EndTick
    | RestartCore(now: int)

  datatype SessionAction = LoadBacklog | TakeLive | MergePending | EndSession

  datatype NodeAction =
    | Restart
    | RequestSnapshot
    | ServeSnapshot
    | DropSnapshot
    | InstallSnapshot(write: WriteOutcome)
    | DeliverFrame(faults: Faults)
    | Disconnect

  datatype Step =
    | CoreDoes(act: CoreAction)
    | OpenSession(sid: nat, fromSeq: int)
    | SessionDoes(sid: nat, move: SessionAction)
    | AddNode(rid: nat)
    | OpenStream(rid: nat, sid: nat)
    | NodeDoes(rid: nat, deed: NodeAction)

  /** A core freshly started over a log it may have inherited. */
  function Init(cfg: CoreConfig, rows: seq<Event>, now: int): System {
    var core := NewCore(cfg, rows, now);
    System(core, Trace(core.markets, seq(|rows|, i => true), map[]), Idle, 0, [], map[], map[])
  }

  // ---------- Core ----------

  function DoIngest(cfg: CoreConfig, s: System, marketId: string, point: SignalPoint, now: int): System {
    if s.pc != Idle then s
    else s.(core := Ingest(cfg, s.core, marketId, point, now),
            trace := TraceIngest(cfg, s.core, s.trace, marketId, point, now))
  }

  function DoClear(cfg: CoreConfig, s: System, marketId: string, now: int): System {
    if s.pc != Idle then s
    else s.(core := Clear(cfg, s.core, marketId, now), trace := TraceClear(cfg, s.core, s.trace, marketId, now))
  }

  function DoBeginTick(s: System, now: int): System {
    if s.pc != Idle then s else s.(pc := Ticking(now, MarketIds(s.core)))
  }

  function DoEvaluate(cfg: CoreConfig, s: System, choice: Choice): System {
    if !s.pc.Ticking? || choice.marketId !in s.pc.remaining then s
    else
      var (after, sent) := Attempt(cfg, s.core, s.pc.now, choice);
      var rest := s.pc.remaining - {choice.marketId};
      s.(core := after,
         trace := TraceAttempt(cfg, s.core, s.trace, s.pc.now, choice),
         pc := match sent
               case Some(evt) => Persisted(s.pc.now, rest, evt)
               case None => Ticking(s.pc.now, rest))
  }

  function OfferTo(sess: Session, evt: Event): Session {
    var taken := !sess.chan.closed && |sess.chan.buffer| < sess.chan.capacity;
    sess.(chan := Offer(sess.chan, evt),
          past := if taken then sess.past.(offered := sess.past.offered + [evt]) else sess.past)
  }

  function DoBroadcast(s: System): System {
    if !s.pc.Persisted? then s
    else s.(pc := Announced(s.pc.now, s.pc.remaining, s.pc.evt),
            announced := s.pc.evt.seqNo,
            sent := s.sent + [s.pc.evt],
            sessions := map sid | sid in s.sessions :: OfferTo(s.sessions[sid], s.pc.evt))
  }

  function DoAssign(s: System): System {
    if !s.pc.Announced? then s
    else s.(core := Assign(s.core, s.pc.evt), pc := Ticking(s.pc.now, s.pc.remaining))
  }

  function DoEndTick(s: System): System {
    if s.pc.Ticking? && s.pc.remaining == {} then s.(pc := Idle) else s
  }

  function EndedSession(sess: Session): Session {
    sess.(phase := Ended, chan := sess.chan.(closed := true))
  }

  /** The core goes down, wherever it is, and comes up again over the log it left; its sessions are cut. */
  function DoRestartCore(cfg: CoreConfig, s: System, now: int): System {
    var core := NewCore(cfg, s.core.rows, now);
    s.(core := core,
       trace := Trace(core.markets, s.trace.acks, map[]),
       pc := Idle,
       sessions := map sid | sid in s.sessions :: EndedSession(s.sessions[sid]))
  }

  function DoCore(cfg: CoreConfig, s: System, act: CoreAction): System {
    match act
    case IngestSignal(marketId, point, now) => DoIngest(cfg, s, marketId, point, now)
    case ClearSignals(marketId, now) => DoClear(cfg, s, marketId, now)
    case BeginTick(now) => DoBeginTick(s, now)
    case EvaluateNext(choice) => DoEvaluate(cfg, s, choice)
    case BroadcastEvent => DoBroadcast(s)
    case AssignMarket => DoAssign(s)
    case EndTick => DoEndTick(s)
    case RestartCore(now) => DoRestartCore(cfg, s, now)
  }

  // ---------- Sessions ----------

  function NewSession(fromSeq: int, joined: nat): Session {
    Session(fromSeq, Subscribed, Cursor(fromSeq, []), Chan(SUBSCRIBER_BUFFER, [], false), None,
            Past(joined, [], [], []))
  }

  function DoOpenSession(s: System, sid: nat, fromSeq: int): System {
    if sid in s.sessions || fromSeq < 1 then s
    else s.(sessions := s.sessions[sid := NewSession(fromSeq, |s.sent|)])
  }

  function LoadedSession(sess: Session, rows: seq<Event>): Session {
    if sess.phase == Subscribed then
      sess.(phase := Streaming, cur := AfterBacklog(sess.fromSeq, rows), past := sess.past.(start := rows))
    else sess
  }

  function TakenSession(sess: Session): Session {
    if sess.phase == Streaming && sess.pending == None && sess.chan.buffer != [] then
      sess.(pending := Some(sess.chan.buffer[0]), chan := sess.chan.(buffer := sess.chan.buffer[1..]))
    else sess
  }

  function MergedSession(sess: Session, rows: seq<Event>): Session {
    if sess.phase == Streaming && sess.pending.Some? then
      var evt := sess.pending.value;
      sess.(pending := None, cur := OnLive(sess.cur, evt, rows),
            past := sess.past.(wakes := sess.past.wakes + [Live(evt, rows, true)]))
    else sess
  }

  /** One step of a session, given the log as it stands. */
  function SessionStep(sess: Session, rows: seq<Event>, move: SessionAction): Session {
    match move
    case LoadBacklog => LoadedSession(sess, rows)
    case TakeLive => TakenSession(sess)
    case MergePending => MergedSession(sess, rows)
    case EndSession => EndedSession(sess)
  }

  function DoSession(s: System, sid: nat, move: SessionAction): System {
    if sid !in s.sessions then s
    else s.(sessions := s.sessions[sid := SessionStep(s.sessions[sid], s.core.rows, move)])
  }

  // ---------- Replicas ----------

  function DoAddNode(s: System, rid: nat): System {
    if rid in s.nodes then s
    else s.(nodes := s.nodes[rid := Node(NewReplica(map[], 0), Ready, map[], 0)])
  }

  /** The frame a reading replica takes next, if its session has written it. */
  function NextFrame(s: System, node: Node): Option<Event> {
    if node.phase.Reading? && node.phase.sid in s.sessions &&
       node.phase.read < |s.sessions[node.phase.sid].cur.written| then
      Some(s.sessions[node.phase.sid].cur.written[node.phase.read])
    else None
  }

  function Deliver(node: Node, evt: Event, faults: Faults): Node
    requires node.phase.Reading?
  {
    var (mem, outcome) := ProcessEvent(node.mem, evt, faults.lookup, faults.commit);
    node.(mem := mem,
          phase := if Continues(outcome) then Reading(node.phase.sid, node.phase.read + 1)
                   else if outcome == Gap then AwaitSnapshot
                   else Ready)
  }

  function Install(node: Node, write: WriteOutcome): Node
    requires node.phase.GotSnapshot?
  {
    var snapshot := node.phase.snapshot;
    var (mem, ok) := Refresh(node.mem, snapshot, write);
    if ok then Node(mem, Ready, snapshot.markets, snapshot.lastSeq) else node.(mem := mem, phase := Ready)
  }

  function DeliverNext(s: System, node: Node, faults: Faults): Node {
    match NextFrame(s, node)
    case Some(evt) => Deliver(node, evt, faults)
    case None => node
  }

  /** One step of a replica, given the rest of the system. */
  function NodeStep(s: System, node: Node, deed: NodeAction): Node {
    match deed
    case Restart => Node(ReplicaState.Restart(node.mem), Ready, map[], 0)
    case RequestSnapshot =>
      if node.phase == Ready && !node.mem.bootstrapped then node.(phase := AwaitSnapshot) else node
    case ServeSnapshot =>
      if node.phase == AwaitSnapshot && s.pc == Idle then node.(phase := GotSnapshot(TakeSnapshot(s.core))) else node
    case DropSnapshot =>
      if node.phase == AwaitSnapshot || node.phase.GotSnapshot? then node.(phase := Ready) else node
    case InstallSnapshot(write) =>
      if node.phase.GotSnapshot? then Install(node, write) else node
    case DeliverFrame(faults) => DeliverNext(s, node, faults)
    case Disconnect =>
      if node.phase.Reading? then node.(phase := Ready) else node
  }

  function DoNode(s: System, rid: nat, deed: NodeAction): System {
    if rid !in s.nodes then s
    else s.(nodes := s.nodes[rid := NodeStep(s, s.nodes[rid], deed)])
  }

  /** A bootstrapped replica asks for the stream from the number after its last. */
  function DoOpenStream(s: System, rid: nat, sid: nat): System {
    if rid !in s.nodes || sid in s.sessions || s.nodes[rid].phase != Ready || !s.nodes[rid].mem.bootstrapped ||
       s.nodes[rid].mem.lastApplied < 0 then s
    else
      s.(sessions := s.sessions[sid := NewSession(s.nodes[rid].mem.lastApplied + 1, |s.sent|)],
         nodes := s.nodes[rid := s.nodes[rid].(phase := Reading(sid, 0))])
  }

  // ---------- Runs ----------

  function Do(cfg: CoreConfig, s: System, step: Step): System {
    match step
    case CoreDoes(act) => DoCore(cfg, s, act)
    case OpenSession(sid, fromSeq) => DoOpenSession(s, sid, fromSeq)
    case SessionDoes(sid, move) => DoSession(s, sid, move)
    case AddNode(rid) => DoAddNode(s, rid)
    case OpenStream(rid, sid) => DoOpenStream(s, rid, sid)
    case NodeDoes(rid, deed) => DoNode(s, rid, deed)
  }

  function Run(cfg: CoreConfig, s: System, steps: seq<Step>): System {
    if steps == [] then s
    else Do(cfg, Run(cfg, s, steps[..|steps| - 1]), steps[|steps| - 1])
  }
}
