/** What every step keeps, over any log the core starts from and under every fault: the log has no gaps, sessions
    have written a stretch of it, and replicas have applied a stretch of it. */
module ProtocolSafety {
  import opened Domain
  import opened SignalWindow
  import opened EventLog
  import opened CoreState
  import opened CoreHistory
  import opened Stream
  import opened ReplicaState
  import opened Protocol

  // ---------- The invariant ----------

  predicate PcSafe(core: Core, pc: Pc, announced: int) {
    && 0 <= announced <= |core.rows|
    && (pc != Idle ==> "" !in pc.remaining && pc.remaining <= core.markets.Keys)
    && (pc.Persisted? || pc.Announced? ==>
        && core.rows != [] && core.rows[|core.rows| - 1] == pc.evt
        && core.lastSeq == |core.rows|
        && pc.evt.marketId in core.markets)
    && (pc.Persisted? ==> announced < |core.rows|)
    && (pc.Announced? ==> announced == |core.rows|)
  }

  ghost predicate CoreSafe(s: System) {
    && LogInv(s.core)
    && MarketsInv(s.core)
    && |s.trace.acks| == |s.core.rows|
    && PcSafe(s.core, s.pc, s.announced)
  }

  /** The live events a session has still to merge. */
  function Queue(sess: Session): seq<Event> {
    (if sess.pending.Some? then [sess.pending.value] else []) + sess.chan.buffer
  }

  predicate Logged(rows: seq<Event>, announced: int, evt: Event) {
    1 <= evt.seqNo <= announced && evt.seqNo <= |rows| && rows[evt.seqNo - 1] == evt
  }

  ghost predicate AllLogged(rows: seq<Event>, announced: int, queue: seq<Event>) {
    forall i :: 0 <= i < |queue| ==> Logged(rows, announced, queue[i])
  }

  /** Every broadcast the session asked for is written or waiting. */
  predicate Covers(announced: int, sess: Session) {
    || announced < sess.cur.next
    || (Queue(sess) != [] && Queue(sess)[|Queue(sess)| - 1].seqNo == announced)
  }

  ghost predicate SessionSafe(rows: seq<Event>, announced: int, sess: Session) {
    && Contiguous(sess.cur, sess.fromSeq, rows)
    && (sess.phase == Subscribed ==> sess.cur == Cursor(sess.fromSeq, []) && sess.pending == None)
    && AllLogged(rows, announced, Queue(sess))
    && |sess.chan.buffer| <= sess.chan.capacity
    && (sess.phase == Streaming && !sess.chan.closed ==> Covers(announced, sess))
  }

  /** Dedupe rows name the log event they were written for; none is beyond the checkpoint or more than one ahead
      of memory. */
  ghost predicate TablesSafe(rows: seq<Event>, r: Replica) {
    && 0 <= r.lastApplied <= r.checkpoint <= |rows|
    && (forall id :: id in r.applied ==>
        && 1 <= r.applied[id] <= r.checkpoint
        && r.applied[id] <= r.lastApplied + 1
        && rows[r.applied[id] - 1].id == id)
  }

  ghost predicate AppliedUpTo(r: Replica, n: int) {
    forall id :: id in r.applied ==> r.applied[id] <= n
  }

  /** Memory is the last snapshot with the log events since then applied. */
  ghost predicate MemorySafe(rows: seq<Event>, node: Node) {
    var r := node.mem;
    if r.bootstrapped then
      && 0 <= node.baseSeq <= r.lastApplied <= |rows|
      && r.lastApplied <= r.coreLastSeq <= |rows|
      && r.markets == Fold(node.base, rows[node.baseSeq..r.lastApplied])
      && HistoriesOf(r.history, rows[node.baseSeq..r.lastApplied])
    else
      r.markets == map[] && r.history == map[] && AppliedUpTo(r, r.lastApplied)
  }

  function Larger(a: int, b: int): int {
    if a >= b then a else b
  }

  predicate SnapshotSafe(snapshot: Snapshot) {
    && snapshot.lastSeq >= 0
    && forall m <- snapshot.markets.Keys ::
         m != "" && snapshot.markets[m].marketId == m && KnownStatus(snapshot.markets[m].status)
  }

  /** The next frame is the next event to apply, or the one after it when that event's commit took effect
      unreported. */
  ghost predicate Aligned(rows: seq<Event>, r: Replica, next: int) {
    || next == r.lastApplied + 1
    || (next == r.lastApplied + 2 && Skipped(rows, r))
  }

  /** The next event is in the dedupe table although memory does not have it: its commit took effect unreported. */
  predicate Skipped(rows: seq<Event>, r: Replica) {
    0 <= r.lastApplied < |rows| && rows[r.lastApplied].id in r.applied
  }

  /** What can put the checkpoint ahead of memory: before a bootstrap, the unreported number of a snapshot; after it,
      the unreported commit of the next event, and then perhaps the unreported number of a snapshot. */
  predicate CheckpointSafe(rows: seq<Event>, r: Replica, lastSeq: int) {
    if r.bootstrapped then
      r.checkpoint > r.lastApplied ==> Skipped(rows, r) && r.checkpoint <= Larger(r.lastApplied + 1, lastSeq)
    else
      r.checkpoint == r.lastApplied || r.checkpoint <= lastSeq
  }

  /** Where a replica waits for a snapshot, and for which: a bootstrapped one only after a gap, so the core is ahead
      of it. */
  ghost predicate PhaseSafe(rows: seq<Event>, lastSeq: int, sessions: map<nat, Session>, node: Node) {
    match node.phase
    case Ready => true
    case AwaitSnapshot =>
      && AppliedUpTo(node.mem, Larger(node.mem.lastApplied, lastSeq))
      && (node.mem.bootstrapped ==> node.mem.lastApplied < lastSeq && Skipped(rows, node.mem))
    case GotSnapshot(snapshot) =>
      && SnapshotSafe(snapshot) && snapshot.lastSeq <= |rows| && snapshot.lastSeq <= lastSeq
      && AppliedUpTo(node.mem, Larger(node.mem.lastApplied, snapshot.lastSeq))
      && (node.mem.bootstrapped ==> node.mem.lastApplied < snapshot.lastSeq && Skipped(rows, node.mem))
      && (node.mem.checkpoint == node.mem.lastApplied || node.mem.checkpoint <= snapshot.lastSeq)
    case Reading(sid, read) =>
      && node.mem.bootstrapped && sid in sessions
      && read <= |sessions[sid].cur.written|
      && Aligned(rows, node.mem, sessions[sid].fromSeq + read)
  }

  ghost predicate NodeSafe(rows: seq<Event>, lastSeq: int, sessions: map<nat, Session>, node: Node) {
    && TablesSafe(rows, node.mem)
    && CheckpointSafe(rows, node.mem, lastSeq)
    && MemorySafe(rows, node)
    && PhaseSafe(rows, lastSeq, sessions, node)
  }

  ghost predicate Safe(s: System) {
    && CoreSafe(s)
    && (forall sid :: sid in s.sessions ==> SessionSafe(s.core.rows, s.announced, s.sessions[sid]))
    && (forall rid :: rid in s.nodes ==> NodeSafe(s.core.rows, s.core.lastSeq, s.sessions, s.nodes[rid]))
  }

  // ---------- Growth ----------

  lemma SessionGrow(rows: seq<Event>, rows': seq<Event>, announced: int, sess: Session)
    requires SessionSafe(rows, announced, sess) && rows <= rows'
    ensures SessionSafe(rows', announced, sess)
  {
    ContiguousStable(sess.cur, sess.fromSeq, rows, rows');
    assert AllLogged(rows', announced, Queue(sess));
  }

  /** Sessions only write more. */
  ghost predicate SessionsGrow(sessions: map<nat, Session>, sessions': map<nat, Session>) {
    forall sid :: sid in sessions ==>
      && sid in sessions'
      && sessions'[sid].fromSeq == sessions[sid].fromSeq
      && sessions[sid].cur.written <= sessions'[sid].cur.written
  }

  lemma NodeGrow(rows: seq<Event>, lastSeq: int, sessions: map<nat, Session>,
                 rows': seq<Event>, lastSeq': int, sessions': map<nat, Session>, node: Node)
    requires NodeSafe(rows, lastSeq, sessions, node)
    requires rows <= rows' && lastSeq <= lastSeq' && SessionsGrow(sessions, sessions')
    ensures NodeSafe(rows', lastSeq', sessions', node)
  {
    var r := node.mem;
    assert TablesSafe(rows', r);
    if r.bootstrapped {
      assert rows'[node.baseSeq..r.lastApplied] == rows[node.baseSeq..r.lastApplied];
    }
    assert MemorySafe(rows', node);
  }

  lemma CoreStepSafe(s: System, s': System)
    requires Safe(s) && CoreSafe(s')
    requires s.core.rows <= s'.core.rows && s.core.lastSeq <= s'.core.lastSeq
    requires s'.announced == s.announced && s'.sessions == s.sessions && s'.nodes == s.nodes
    ensures Safe(s')
  {
    forall sid | sid in s'.sessions ensures SessionSafe(s'.core.rows, s'.announced, s'.sessions[sid]) {
      SessionGrow(s.core.rows, s'.core.rows, s.announced, s.sessions[sid]);
    }
    forall rid | rid in s'.nodes ensures NodeSafe(s'.core.rows, s'.core.lastSeq, s'.sessions, s'.nodes[rid]) {
      NodeGrow(s.core.rows, s.core.lastSeq, s.sessions, s'.core.rows, s'.core.lastSeq, s'.sessions, s.nodes[rid]);
    }
  }

  /** Any change to sessions that only writes more. */
  lemma SessionsStepSafe(s: System, s': System)
    requires Safe(s) && CoreSafe(s')
    requires s'.core == s.core && s'.nodes == s.nodes && SessionsGrow(s.sessions, s'.sessions)
    requires forall sid :: sid in s'.sessions ==> SessionSafe(s'.core.rows, s'.announced, s'.sessions[sid])
    ensures Safe(s')
  {
    forall rid | rid in s'.nodes ensures NodeSafe(s'.core.rows, s'.core.lastSeq, s'.sessions, s'.nodes[rid]) {
      NodeGrow(s.core.rows, s.core.lastSeq, s.sessions, s'.core.rows, s'.core.lastSeq, s'.sessions, s.nodes[rid]);
    }
  }

  lemma NodeStepSafe(s: System, s': System, rid: nat, node: Node)
    requires Safe(s)
    requires s' == s.(nodes := s.nodes[rid := node])
    requires NodeSafe(s.core.rows, s.core.lastSeq, s.sessions, node)
    ensures Safe(s')
  {
  }

  // ---------- Core steps ----------

  lemma IngestSafe(cfg: CoreConfig, s: System, marketId: string, point: SignalPoint, now: int)
    requires cfg.defaultMarket != "" && Safe(s)
    ensures Safe(DoIngest(cfg, s, marketId, point, now))
  {
    if s.pc == Idle {
      IngestStep(cfg, s.core, marketId, point, now);
      CoreStepSafe(s, DoIngest(cfg, s, marketId, point, now));
    }
  }

  lemma ClearSafe(cfg: CoreConfig, s: System, marketId: string, now: int)
    requires cfg.defaultMarket != "" && Safe(s)
    ensures Safe(DoClear(cfg, s, marketId, now))
  {
    if s.pc == Idle {
      ClearStep(cfg, s.core, marketId, now);
      CoreStepSafe(s, DoClear(cfg, s, marketId, now));
    }
  }

  lemma EvaluateCore(cfg: CoreConfig, s: System, choice: Choice)
    requires CoreSafe(s)
    ensures
      var s' := DoEvaluate(cfg, s, choice);
      && CoreSafe(s')
      && s.core.rows <= s'.core.rows && s.core.lastSeq <= s'.core.lastSeq
      && s'.announced == s.announced && s'.sessions == s.sessions && s'.nodes == s.nodes
  {
    if s.pc.Ticking? && choice.marketId in s.pc.remaining {
      AttemptStep(cfg, s.core, s.pc.now, choice);
    }
  }

  lemma EvaluateSafe(cfg: CoreConfig, s: System, choice: Choice)
    requires Safe(s)
    ensures Safe(DoEvaluate(cfg, s, choice))
  {
    EvaluateCore(cfg, s, choice);
    CoreStepSafe(s, DoEvaluate(cfg, s, choice));
  }

  lemma LoggedMore(rows: seq<Event>, announced: int, queue: seq<Event>, evt: Event)
    requires AllLogged(rows, announced, queue)
    requires 0 <= announced < evt.seqNo == |rows| && rows[|rows| - 1] == evt
    ensures AllLogged(rows, evt.seqNo, queue) && AllLogged(rows, evt.seqNo, queue + [evt])
  {
    forall i | 0 <= i < |queue| ensures Logged(rows, evt.seqNo, queue[i]) {
      assert Logged(rows, announced, queue[i]);
    }
  }

  lemma OfferSafe(rows: seq<Event>, announced: int, sess: Session, evt: Event)
    requires SessionSafe(rows, announced, sess)
    requires 0 <= announced < evt.seqNo == |rows| && rows[|rows| - 1] == evt
    ensures SessionSafe(rows, evt.seqNo, OfferTo(sess, evt))
  {
    var sess' := OfferTo(sess, evt);
    LoggedMore(rows, announced, Queue(sess), evt);
    assert Queue(sess') == Queue(sess) || Queue(sess') == Queue(sess) + [evt];
  }

  lemma BroadcastCore(s: System)
    requires CoreSafe(s) && s.pc.Persisted?
    ensures CoreSafe(DoBroadcast(s)) && DoBroadcast(s).announced == s.pc.evt.seqNo
    ensures DoBroadcast(s).sessions.Keys == s.sessions.Keys
    ensures 0 <= s.announced < s.pc.evt.seqNo == |s.core.rows| && s.core.rows[|s.core.rows| - 1] == s.pc.evt
  {
  }

  lemma AllOffered(rows: seq<Event>, announced: int, sessions: map<nat, Session>, evt: Event)
    requires forall sid :: sid in sessions ==> SessionSafe(rows, announced, sessions[sid])
    requires 0 <= announced < evt.seqNo == |rows| && rows[|rows| - 1] == evt
    ensures
      var sessions' := map sid | sid in sessions :: OfferTo(sessions[sid], evt);
      && SessionsGrow(sessions, sessions')
      && forall sid :: sid in sessions' ==> SessionSafe(rows, evt.seqNo, sessions'[sid])
  {
    forall sid | sid in sessions ensures SessionSafe(rows, evt.seqNo, OfferTo(sessions[sid], evt)) {
      OfferSafe(rows, announced, sessions[sid], evt);
    }
  }

  lemma BroadcastSafe(s: System)
    requires Safe(s)
    ensures Safe(DoBroadcast(s))
  {
    var s' := DoBroadcast(s);
    if s.pc.Persisted? {
      BroadcastCore(s);
      AllOffered(s.core.rows, s.announced, s.sessions, s.pc.evt);
      SessionsStepSafe(s, s');
    }
  }

  lemma AssignSafe(s: System)
    requires Safe(s)
    ensures Safe(DoAssign(s))
  {
    if s.pc.Announced? {
      var n := |s.core.rows| - 1;
      assert WellFormed(s.core.rows[n]);
      CoreStepSafe(s, DoAssign(s));
    }
  }

  lemma TickEdgesSafe(s: System, now: int)
    requires Safe(s)
    ensures Safe(DoBeginTick(s, now)) && Safe(DoEndTick(s))
  {
    CoreStepSafe(s, DoBeginTick(s, now));
    CoreStepSafe(s, DoEndTick(s));
  }

  /** A restart of the core, even between an insert and its broadcast. */
  lemma RestartCoreSafe(cfg: CoreConfig, s: System, now: int)
    requires cfg.defaultMarket != "" && Safe(s)
    ensures Safe(DoRestartCore(cfg, s, now))
  {
    var s' := DoRestartCore(cfg, s, now);
    NewCoreLog(cfg, s.core.rows, now);
    var up := s'.(sessions := s.sessions);
    CoreStepSafe(s, up);
    forall sid | sid in s.sessions
      ensures SessionMoves(s.core.rows, s.announced, s.sessions[sid], EndedSession(s.sessions[sid]))
    {
      EndSafe(s.core.rows, s.announced, s.sessions[sid]);
    }
    SessionsStepSafe(up, s');
  }

  lemma CoreSafeStep(cfg: CoreConfig, s: System, act: CoreAction)
    requires cfg.defaultMarket != "" && Safe(s)
    ensures Safe(DoCore(cfg, s, act))
  {
    match act
    case IngestSignal(marketId, point, now) => IngestSafe(cfg, s, marketId, point, now);
    case ClearSignals(marketId, now) => ClearSafe(cfg, s, marketId, now);
    case BeginTick(now) => TickEdgesSafe(s, now);
    case EvaluateNext(choice) => EvaluateSafe(cfg, s, choice);
    case BroadcastEvent => BroadcastSafe(s);
    case AssignMarket => AssignSafe(s);
    case EndTick => TickEdgesSafe(s, 0);
    case RestartCore(now) => RestartCoreSafe(cfg, s, now);
  }

  // ---------- Session steps ----------

  /** A session after one of its own steps: still safe, with the same start and at least the same frames. */
  ghost predicate SessionMoves(rows: seq<Event>, announced: int, sess: Session, sess': Session) {
    && SessionSafe(rows, announced, sess')
    && sess'.fromSeq == sess.fromSeq
    && sess.cur.written <= sess'.cur.written
  }

  lemma BacklogSafe(rows: seq<Event>, announced: int, sess: Session)
    requires GapFree(rows) && SessionSafe(rows, announced, sess) && 0 <= announced <= |rows|
    ensures SessionMoves(rows, announced, sess, LoadedSession(sess, rows))
  {
    if sess.phase == Subscribed {
      BacklogContiguous(sess.fromSeq, rows);
      assert Queue(LoadedSession(sess, rows)) == Queue(sess);
    }
  }

  lemma TakeSafe(rows: seq<Event>, announced: int, sess: Session)
    requires SessionSafe(rows, announced, sess)
    ensures SessionMoves(rows, announced, sess, TakenSession(sess))
  {
    assert Queue(TakenSession(sess)) == Queue(sess);
  }

  lemma MergeSafe(rows: seq<Event>, announced: int, sess: Session)
    requires GapFree(rows) && SessionSafe(rows, announced, sess) && 0 <= announced <= |rows|
    ensures SessionMoves(rows, announced, sess, MergedSession(sess, rows))
  {
    if sess.phase == Streaming && sess.pending.Some? {
      var evt := sess.pending.value;
      var queue := Queue(sess);
      assert queue[0] == evt && Logged(rows, announced, queue[0]);
      LiveContiguous(sess.cur, sess.fromSeq, evt, rows);
      assert Queue(MergedSession(sess, rows)) == queue[1..];
      forall i | 0 <= i < |queue[1..]| ensures Logged(rows, announced, queue[1..][i]) {
        assert queue[1..][i] == queue[i + 1];
      }
    }
  }

  lemma EndSafe(rows: seq<Event>, announced: int, sess: Session)
    requires SessionSafe(rows, announced, sess)
    ensures SessionMoves(rows, announced, sess, EndedSession(sess))
  {
    assert Queue(EndedSession(sess)) == Queue(sess);
  }

  lemma SessionStepKeeps(rows: seq<Event>, announced: int, sess: Session, move: SessionAction)
    requires GapFree(rows) && SessionSafe(rows, announced, sess) && 0 <= announced <= |rows|
    ensures SessionMoves(rows, announced, sess, SessionStep(sess, rows, move))
  {
    match move
    case LoadBacklog => BacklogSafe(rows, announced, sess);
    case TakeLive => TakeSafe(rows, announced, sess);
    case MergePending => MergeSafe(rows, announced, sess);
    case EndSession => EndSafe(rows, announced, sess);
  }

  lemma SessionSafeStep(s: System, sid: nat, move: SessionAction)
    requires Safe(s)
    ensures Safe(DoSession(s, sid, move))
  {
    if sid in s.sessions {
      SessionStepKeeps(s.core.rows, s.announced, s.sessions[sid], move);
      SessionsStepSafe(s, DoSession(s, sid, move));
    }
  }

  lemma NewSessionSafe(rows: seq<Event>, announced: int, fromSeq: int, joined: nat)
    requires fromSeq >= 1
    ensures SessionSafe(rows, announced, NewSession(fromSeq, joined))
  {
  }

  lemma OpenSessionSafe(s: System, sid: nat, fromSeq: int)
    requires Safe(s)
    ensures Safe(DoOpenSession(s, sid, fromSeq))
  {
    if sid !in s.sessions && fromSeq >= 1 {
      NewSessionSafe(s.core.rows, s.announced, fromSeq, |s.sent|);
      SessionsStepSafe(s, DoOpenSession(s, sid, fromSeq));
    }
  }

  // ---------- Replica steps ----------

  /** Turning a waiting replica into the reader of a session opened for it. */
  lemma StartReading(rows: seq<Event>, lastSeq: int, sessions: map<nat, Session>, node: Node, sid: nat)
    requires NodeSafe(rows, lastSeq, sessions, node) && node.mem.bootstrapped
    requires sid in sessions && sessions[sid].fromSeq == node.mem.lastApplied + 1
    ensures NodeSafe(rows, lastSeq, sessions, node.(phase := Reading(sid, 0)))
  {
  }

  lemma ReaderSafe(s: System, rid: nat, sid: nat)
    requires Safe(s) && rid in s.nodes && s.nodes[rid].mem.bootstrapped
    requires sid in s.sessions && s.sessions[sid].fromSeq == s.nodes[rid].mem.lastApplied + 1
    ensures Safe(s.(nodes := s.nodes[rid := s.nodes[rid].(phase := Reading(sid, 0))]))
  {
    var node := s.nodes[rid].(phase := Reading(sid, 0));
    StartReading(s.core.rows, s.core.lastSeq, s.sessions, s.nodes[rid], sid);
    NodeStepSafe(s, s.(nodes := s.nodes[rid := node]), rid, node);
  }

  /** A replica may open a stream under this id. */
  predicate CanOpen(s: System, rid: nat, sid: nat) {
    rid in s.nodes && sid !in s.sessions && s.nodes[rid].phase == Ready && s.nodes[rid].mem.bootstrapped &&
    s.nodes[rid].mem.lastApplied >= 0
  }

  /** Opening a stream is opening a session, then reading it. */
  lemma OpenThenRead(s: System, rid: nat, sid: nat)
    ensures !CanOpen(s, rid, sid) ==> DoOpenStream(s, rid, sid) == s
    ensures CanOpen(s, rid, sid) ==>
              var open := DoOpenSession(s, sid, s.nodes[rid].mem.lastApplied + 1);
              && open.nodes == s.nodes && sid in open.sessions
              && open.sessions[sid].fromSeq == s.nodes[rid].mem.lastApplied + 1
              && DoOpenStream(s, rid, sid) ==
                 open.(nodes := open.nodes[rid := open.nodes[rid].(phase := Reading(sid, 0))])
  {
  }

  lemma OpenStreamSafe(s: System, rid: nat, sid: nat)
    requires Safe(s)
    ensures Safe(DoOpenStream(s, rid, sid))
  {
    OpenThenRead(s, rid, sid);
    if CanOpen(s, rid, sid) {
      OpenSessionSafe(s, sid, s.nodes[rid].mem.lastApplied + 1);
      ReaderSafe(DoOpenSession(s, sid, s.nodes[rid].mem.lastApplied + 1), rid, sid);
    }
  }
}
