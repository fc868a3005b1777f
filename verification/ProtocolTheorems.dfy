/** The promises of the system about its log, its streams and its replicas' progress, for every run over every
    log the core may start from. */
module ProtocolTheorems {
  import opened Domain
  import opened EventLog
  import opened CoreState
  import opened CoreHistory
  import opened ReplicaState
  import opened Protocol
  import opened ProtocolSafety
  import opened ReplicaSafety

  ghost predicate Uses(steps: seq<Step>, allowed: Step -> bool) {
    forall i :: 0 <= i < |steps| ==> allowed(steps[i])
  }

  /** Some run over the given starting log, made of allowed steps only, ends here. */
  ghost predicate Reachable(cfg: CoreConfig, rows: seq<Event>, s: System, allowed: Step -> bool) {
    && cfg.defaultMarket != "" && StartLog(rows)
    && exists now, steps :: Uses(steps, allowed) && s == Run(cfg, Init(cfg, rows, now), steps)
  }

  predicate Anything(step: Step) {
    true
  }

  lemma ReachableIsSafe(cfg: CoreConfig, rows: seq<Event>, s: System, allowed: Step -> bool)
    requires Reachable(cfg, rows, s, allowed)
    ensures Safe(s)
  {
    var now, steps :| Uses(steps, allowed) && s == Run(cfg, Init(cfg, rows, now), steps);
    RunsAreSafe(cfg, rows, now, steps);
  }

  /** One replica of a reachable state, on its own. */
  lemma ReachableNode(cfg: CoreConfig, rows: seq<Event>, s: System, rid: nat)
    requires Reachable(cfg, rows, s, Anything) && rid in s.nodes
    ensures GapFree(s.core.rows) && NodeSafe(s.core.rows, s.core.lastSeq, s.sessions, s.nodes[rid])
  {
    ReachableIsSafe(cfg, rows, s, Anything);
  }

  // ---------- The log ----------

  /** The log is exactly 1..n with distinct ids, lastSeq is n or one behind it, and every row passes the replica's
      validators; whatever fails, and whatever log the core inherits. */
  lemma LogIsGapFree(cfg: CoreConfig, rows: seq<Event>, s: System)
    requires Reachable(cfg, rows, s, Anything)
    ensures GapFree(s.core.rows) && DistinctIds(s.core.rows)
    ensures 0 <= s.core.lastSeq && |s.core.rows| - 1 <= s.core.lastSeq <= |s.core.rows|
    ensures forall i :: 0 <= i < |s.core.rows| ==>
              && ValidateEnvelope(s.core.rows[i]).None?
              && DecodePayload(s.core.rows[i]) == Market(MarketOf(s.core.rows[i]))
  {
    ReachableIsSafe(cfg, rows, s, Anything);
    forall i | 0 <= i < |s.core.rows|
      ensures ValidateEnvelope(s.core.rows[i]).None?
      ensures DecodePayload(s.core.rows[i]) == Market(MarketOf(s.core.rows[i]))
    {
      ValidatorsAcceptWellFormed(s.core.rows[i]);
    }
  }

  /** The evaluation has something to persist. */
  predicate Emits(cfg: CoreConfig, s: System, choice: Choice)
    requires s.pc.Ticking?
  {
    EnsureMarket(s.core, choice.marketId, s.pc.now).markets[choice.marketId] !=
    Decide(cfg, s.core, choice.marketId, s.pc.now).next
  }

  /** After an insert that succeeds, and after a failed one whose resync read works, lastSeq is the log length;
      it can be one behind only after an emission whose resync failed, or when nothing was emitted. A failed one
      whose resync fails too leaves lastSeq where it was. */
  lemma SequenceResyncs(cfg: CoreConfig, rows: seq<Event>, s: System, choice: Choice)
    requires Reachable(cfg, rows, s, Anything)
    requires s.pc.Ticking? && choice.marketId in s.pc.remaining
    ensures
      var s' := DoEvaluate(cfg, s, choice);
      && (s'.pc.Persisted? ==> s'.core.lastSeq == |s'.core.rows| == |s.core.rows| + 1)
      && (Emits(cfg, s, choice) && choice.resync ==> s'.core.lastSeq == |s'.core.rows|)
      && (Emits(cfg, s, choice) && s'.pc.Ticking? && !choice.resync ==> s'.core.lastSeq == s.core.lastSeq)
      && (!Emits(cfg, s, choice) ==> s'.core.rows == s.core.rows && s'.core.lastSeq == s.core.lastSeq)
  {
    ReachableIsSafe(cfg, rows, s, Anything);
    var m, now := choice.marketId, s.pc.now;
    PrepareStep(cfg, s.core, m, now);
    EmitKeepsLog(Prepare(cfg, s.core, m, now), NewEvent(s.core, Decide(cfg, s.core, m, now), choice), choice);
  }

  /** The event an evaluation tries to persist. */
  function Tried(cfg: CoreConfig, s: System, choice: Choice): Event
    requires s.pc.Ticking?
  {
    NewEvent(s.core, Decide(cfg, s.core, choice.marketId, s.pc.now), choice)
  }

  /** The guard of the resync that moves lastSeq on a failure: the read works, and the log holds a row lastSeq does
      not count, because an earlier failure left one there or this one does. */
  predicate CatchesUp(cfg: CoreConfig, s: System, choice: Choice)
    requires s.pc.Ticking?
  {
    choice.resync &&
    (s.core.lastSeq < |s.core.rows| || (choice.outcome == FailsStored && !Clashes(s.core.rows, Tried(cfg, s, choice))))
  }

  /** "If persistence fails, state and lastSeq do not advance", exactly: an insert fails if the database says so or a
      key is taken, which it is whenever lastSeq is behind the log. A failure never changes a market. It moves lastSeq,
      by one, if and only if the resync catches up; otherwise lastSeq stays where it was. */
  lemma FailedInsertMovesSequence(cfg: CoreConfig, rows: seq<Event>, s: System, choice: Choice)
    requires Reachable(cfg, rows, s, Anything)
    requires s.pc.Ticking? && choice.marketId in s.pc.remaining && Emits(cfg, s, choice)
    ensures
      var s' := DoEvaluate(cfg, s, choice);
      && (s'.pc.Ticking? <==> choice.outcome != Succeeds || Clashes(s.core.rows, Tried(cfg, s, choice)))
      && (s.core.lastSeq < |s.core.rows| ==> Clashes(s.core.rows, Tried(cfg, s, choice)))
      && s'.core.markets == s.core.markets
      && (s'.pc.Ticking? ==>
          && (s'.core.lastSeq != s.core.lastSeq <==> CatchesUp(cfg, s, choice))
          && (s'.core.lastSeq != s.core.lastSeq ==> s'.core.lastSeq == s.core.lastSeq + 1 == |s'.core.rows|))
  {
    ReachableIsSafe(cfg, rows, s, Anything);
    FailedAttempt(cfg, s.core, s.pc.now, choice);
  }

  lemma FailedAttempt(cfg: CoreConfig, c: Core, now: int, choice: Choice)
    requires LogInv(c) && MarketsInv(c) && choice.marketId != ""
    requires EnsureMarket(c, choice.marketId, now).markets[choice.marketId] != Decide(cfg, c, choice.marketId, now).next
    ensures
      var evt := NewEvent(c, Decide(cfg, c, choice.marketId, now), choice);
      var (after, sent) := Attempt(cfg, c, now, choice);
      var stores := choice.outcome == FailsStored && !Clashes(c.rows, evt);
      var catchesUp := choice.resync && (c.lastSeq < |c.rows| || stores);
      && (sent.None? <==> choice.outcome != Succeeds || Clashes(c.rows, evt))
      && (c.lastSeq < |c.rows| ==> Clashes(c.rows, evt))
      && after.markets == EnsureMarket(c, choice.marketId, now).markets
      && (sent.None? ==>
          && (after.lastSeq != c.lastSeq <==> catchesUp)
          && (after.lastSeq != c.lastSeq ==> after.lastSeq == c.lastSeq + 1 == |after.rows|))
  {
    var m := choice.marketId;
    var ready := Prepare(cfg, c, m, now);
    PrepareStep(cfg, c, m, now);
    FailedEmit(ready, NewEvent(c, Decide(cfg, c, m, now), choice), choice);
    EmitKeepsLog(ready, NewEvent(c, Decide(cfg, c, m, now), choice), choice);
  }

  // ---------- Sessions ----------

  /** A session has written exactly the log events from its fromSeq on, in order: no gap, repeat or reordering. */
  lemma SessionsWriteTheLog(cfg: CoreConfig, rows: seq<Event>, s: System, sid: nat)
    requires Reachable(cfg, rows, s, Anything) && sid in s.sessions
    ensures
      var frames, from := s.sessions[sid].cur.written, s.sessions[sid].fromSeq;
      && from >= 1
      && (frames != [] ==>
          from - 1 + |frames| <= |s.core.rows| && frames == s.core.rows[from - 1..from - 1 + |frames|])
  {
    ReachableIsSafe(cfg, rows, s, Anything);
    assert SessionSafe(s.core.rows, s.announced, s.sessions[sid]);
  }

  /** The session is live, was not evicted, and has nothing left to merge. */
  predicate Drained(sess: Session) {
    sess.phase == Streaming && !sess.chan.closed && sess.chan.buffer == [] && sess.pending == None
  }

  /** The session has written log event n, at its place. */
  predicate HasWritten(rows: seq<Event>, sess: Session, n: int) {
    && 1 <= n <= |rows|
    && 0 <= n - sess.fromSeq < |sess.cur.written|
    && sess.cur.written[n - sess.fromSeq] == rows[n - 1]
  }

  lemma DrainedHasWritten(rows: seq<Event>, announced: int, sess: Session, n: int)
    requires SessionSafe(rows, announced, sess) && Drained(sess) && sess.fromSeq <= n <= announced
    ensures HasWritten(rows, sess, n)
  {
    assert Queue(sess) == [];
  }

  /** No event is lost between backlog and live stream: a drained session has written every event broadcast so far
      that it asked for. */
  lemma NoEventLost(cfg: CoreConfig, rows: seq<Event>, s: System, sid: nat, n: int)
    requires Reachable(cfg, rows, s, Anything) && sid in s.sessions && Drained(s.sessions[sid])
    requires s.sessions[sid].fromSeq <= n <= s.announced
    ensures HasWritten(s.core.rows, s.sessions[sid], n)
  {
    ReachableIsSafe(cfg, rows, s, Anything);
    assert SessionSafe(s.core.rows, s.announced, s.sessions[sid]);
    DrainedHasWritten(s.core.rows, s.announced, s.sessions[sid], n);
  }

  // ---------- Replicas and their frames ----------

  /** A replica commit that takes effect reports so. */
  predicate Reported(step: Step) {
    step.NodeDoes? && step.deed.DeliverFrame? ==> step.deed.faults.commit != DoneUnreported
  }

  /** The next frame is the next event, and nothing beyond memory is in the dedupe table. */
  ghost predicate InStep(sessions: map<nat, Session>, node: Node) {
    && AppliedUpTo(node.mem, node.mem.lastApplied)
    && (node.phase.Reading? ==>
        node.phase.sid in sessions && sessions[node.phase.sid].fromSeq + node.phase.read == node.mem.lastApplied + 1)
  }

  ghost predicate AllInStep(s: System) {
    forall rid :: rid in s.nodes ==> InStep(s.sessions, s.nodes[rid])
  }

  lemma DeliverInStep(s: System, rid: nat, faults: Faults)
    requires Safe(s) && rid in s.nodes && InStep(s.sessions, s.nodes[rid]) && faults.commit != DoneUnreported
    requires NextFrame(s, s.nodes[rid]).Some?
    ensures InStep(s.sessions, Deliver(s.nodes[rid], NextFrame(s, s.nodes[rid]).value, faults))
  {
    NextFrameDeliverable(s, rid);
    var node := s.nodes[rid];
    DeliveredOutcome(s.core.rows, node.mem, NextFrame(s, node).value, faults);
  }

  lemma InstallInStep(node: Node, write: WriteOutcome, sessions: map<nat, Session>)
    requires node.phase.GotSnapshot? && InStep(sessions, node)
    ensures InStep(sessions, Install(node, write))
  {
  }

  lemma NodeInStep(s: System, rid: nat, deed: NodeAction)
    requires Safe(s) && rid in s.nodes && InStep(s.sessions, s.nodes[rid]) && Reported(NodeDoes(rid, deed))
    ensures InStep(s.sessions, NodeStep(s, s.nodes[rid], deed))
  {
    var node := s.nodes[rid];
    match deed
    case DeliverFrame(faults) =>
      if NextFrame(s, node).Some? {
        DeliverInStep(s, rid, faults);
      }
    case InstallSnapshot(write) =>
      if node.phase.GotSnapshot? {
        InstallInStep(node, write, s.sessions);
      }
    case Restart =>
      RestartInStep(s.core.rows, s.core.lastSeq, s.sessions, node);
    case _ =>
  }

  lemma RestartInStep(rows: seq<Event>, lastSeq: int, sessions: map<nat, Session>, node: Node)
    requires NodeSafe(rows, lastSeq, sessions, node)
    ensures InStep(sessions, Node(ReplicaState.Restart(node.mem), Ready, map[], 0))
  {
  }

  /** Steps of the core and of sessions leave every replica in step. */
  lemma OthersInStep(s: System, s': System)
    requires AllInStep(s) && s'.nodes == s.nodes
    requires forall sid :: sid in s.sessions ==>
               sid in s'.sessions && s'.sessions[sid].fromSeq == s.sessions[sid].fromSeq
    ensures AllInStep(s')
  {
    forall rid | rid in s'.nodes ensures InStep(s'.sessions, s'.nodes[rid]) {
      assert InStep(s.sessions, s.nodes[rid]);
    }
  }

  lemma NodesInStep(s: System, rid: nat, deed: NodeAction)
    requires Safe(s) && AllInStep(s) && Reported(NodeDoes(rid, deed))
    ensures AllInStep(DoNode(s, rid, deed))
  {
    if rid in s.nodes {
      NodeInStep(s, rid, deed);
    }
  }

  lemma OpenStreamInStep(s: System, rid: nat, sid: nat)
    requires AllInStep(s)
    ensures AllInStep(DoOpenStream(s, rid, sid))
  {
    var s' := DoOpenStream(s, rid, sid);
    forall r | r in s'.nodes ensures InStep(s'.sessions, s'.nodes[r]) {
      assert InStep(s.sessions, s.nodes[r]);
    }
  }

  /** The core neither reads nor moves sessions' starts. */
  lemma CoreInStep(cfg: CoreConfig, s: System, act: CoreAction)
    requires AllInStep(s)
    ensures AllInStep(DoCore(cfg, s, act))
  {
    OthersInStep(s, DoCore(cfg, s, act));
  }

  /** Nor do sessions' own steps. */
  lemma SessionInStep(s: System, sid: nat, move: SessionAction)
    requires AllInStep(s)
    ensures AllInStep(DoSession(s, sid, move))
  {
    OthersInStep(s, DoSession(s, sid, move));
  }

  lemma StepInStep(cfg: CoreConfig, s: System, step: Step)
    requires Safe(s) && AllInStep(s) && Reported(step)
    ensures AllInStep(Do(cfg, s, step))
  {
    match step
    case CoreDoes(act) => CoreInStep(cfg, s, act);
    case NodeDoes(rid, deed) => NodesInStep(s, rid, deed);
    case OpenStream(rid, sid) => OpenStreamInStep(s, rid, sid);
    case SessionDoes(sid, move) => SessionInStep(s, sid, move);
    case OpenSession(sid, fromSeq) => OthersInStep(s, DoOpenSession(s, sid, fromSeq));
    case AddNode(_) =>
  }

  lemma {:induction false} ReportedRunsInStep(cfg: CoreConfig, rows: seq<Event>, now: int, steps: seq<Step>)
    requires cfg.defaultMarket != "" && StartLog(rows) && Uses(steps, Reported)
    ensures AllInStep(Run(cfg, Init(cfg, rows, now), steps))
  {
    if steps == [] {
    } else {
      var init := steps[..|steps| - 1];
      ReportedRunsInStep(cfg, rows, now, init);
      RunsAreSafe(cfg, rows, now, init);
      StepInStep(cfg, Run(cfg, Init(cfg, rows, now), init), steps[|steps| - 1]);
    }
  }

  /** A frame that arrives in step is the next event and is not in the dedupe table. */
  lemma InStepFrame(s: System, rid: nat, faults: Faults)
    requires Safe(s) && rid in s.nodes && InStep(s.sessions, s.nodes[rid]) && NextFrame(s, s.nodes[rid]).Some?
    ensures
      var outcome := ProcessEvent(s.nodes[rid].mem, NextFrame(s, s.nodes[rid]).value, faults.lookup, faults.commit).1;
      && outcome != Gap && outcome != Duplicate
      && (outcome == Applied <==> faults.lookup && faults.commit == Done)
  {
    NextFrameDeliverable(s, rid);
    var r, evt := s.nodes[rid].mem, NextFrame(s, s.nodes[rid]).value;
    DedupeRowNumber(s.core.rows, r, evt.seqNo - 1);
    DeliveredOutcome(s.core.rows, r, evt, faults);
  }

  /** If commits either happen or leave the tables alone, a replica that has read k frames of its session has
      advanced by exactly k, and its next frame is neither a gap nor a duplicate: the lookup and the commit going
      through are all it takes to apply it. */
  lemma FramesApplyOnce(cfg: CoreConfig, rows: seq<Event>, s: System, rid: nat, faults: Faults)
    requires Reachable(cfg, rows, s, Reported) && rid in s.nodes && s.nodes[rid].phase.Reading?
    ensures
      var node := s.nodes[rid];
      && node.phase.sid in s.sessions
      && node.mem.lastApplied == s.sessions[node.phase.sid].fromSeq - 1 + node.phase.read
      && (NextFrame(s, node).Some? ==>
          var outcome := ProcessEvent(node.mem, NextFrame(s, node).value, faults.lookup, faults.commit).1;
          && outcome != Gap && outcome != Duplicate
          && (outcome == Applied <==> faults.lookup && faults.commit == Done))
  {
    var now, steps :| Uses(steps, Reported) && s == Run(cfg, Init(cfg, rows, now), steps);
    ReportedRunsInStep(cfg, rows, now, steps);
    RunsAreSafe(cfg, rows, now, steps);
    assert InStep(s.sessions, s.nodes[rid]);
    if NextFrame(s, s.nodes[rid]).Some? {
      InStepFrame(s, rid, faults);
    }
  }

  /** Under every fault: a frame is a gap exactly when the event before it had its commit take effect without being
      reported, and the dedupe table never swallows an event beyond the checkpoint. */
  lemma GapsComeFromUnreportedCommits(cfg: CoreConfig, rows: seq<Event>, s: System, rid: nat, commit: WriteOutcome)
    requires Reachable(cfg, rows, s, Anything) && rid in s.nodes && NextFrame(s, s.nodes[rid]).Some?
    ensures
      var r, evt := s.nodes[rid].mem, NextFrame(s, s.nodes[rid]).value;
      var outcome := ProcessEvent(r, evt, true, commit).1;
      && (outcome == Gap <==>
          && 0 <= r.lastApplied < |s.core.rows| && evt.seqNo == r.lastApplied + 2
          && s.core.rows[r.lastApplied].id in r.applied)
      && (outcome == Duplicate ==> evt.seqNo <= r.checkpoint)
  {
    ReachableIsSafe(cfg, rows, s, Anything);
    NextFrameDeliverable(s, rid);
    var r, evt := s.nodes[rid].mem, NextFrame(s, s.nodes[rid]).value;
    DedupeRowNumber(s.core.rows, r, evt.seqNo - 1);
    DeliveredOutcome(s.core.rows, r, evt, Faults(true, commit));
  }

  /** Every dedupe row is within the checkpoint and names its log event. A bootstrapped replica that was brought a
      snapshot had met a gap, and then the snapshot is always ahead of it: it is accepted, and if its number is
      stored, memory moves forward, checkpoint and memory are level again, and every dedupe row is behind them. */
  lemma RefreshRealigns(cfg: CoreConfig, rows: seq<Event>, s: System, rid: nat)
    requires Reachable(cfg, rows, s, Anything) && rid in s.nodes
    ensures
      var node := s.nodes[rid];
      && 0 <= node.mem.lastApplied <= node.mem.checkpoint <= |s.core.rows|
      && (forall id :: id in node.mem.applied ==>
          1 <= node.mem.applied[id] <= node.mem.checkpoint && s.core.rows[node.mem.applied[id] - 1].id == id)
      && (node.mem.bootstrapped && node.phase == AwaitSnapshot ==> node.mem.lastApplied < s.core.lastSeq)
      && (node.mem.bootstrapped && node.phase.GotSnapshot? ==>
          var after := Install(node, Done).mem;
          && after.bootstrapped
          && node.mem.lastApplied < after.lastApplied == after.checkpoint == node.phase.snapshot.lastSeq
          && AppliedUpTo(after, after.lastApplied))
  {
    ReachableNode(cfg, rows, s, rid);
    var node := s.nodes[rid];
    if node.phase.GotSnapshot? {
      SnapshotPasses(node.phase.snapshot, node.mem);
    }
  }

  lemma CommitMovesForward(rows: seq<Event>, lastSeq: int, r: Replica, evt: Event, faults: Faults)
    requires Deliverable(rows, r, evt) && r.bootstrapped && CheckpointSafe(rows, r, lastSeq)
    ensures ProcessEvent(r, evt, faults.lookup, faults.commit).0.checkpoint >= r.checkpoint
  {
    DeliveredOutcome(rows, r, evt, faults);
  }

  lemma InstallMovesForward(rows: seq<Event>, lastSeq: int, sessions: map<nat, Session>, node: Node,
                            write: WriteOutcome)
    requires NodeSafe(rows, lastSeq, sessions, node) && node.phase.GotSnapshot?
    ensures Install(node, write).mem.checkpoint >= node.mem.checkpoint
  {
    SnapshotPasses(node.phase.snapshot, node.mem);
  }

  lemma NodeMovesForward(s: System, rid: nat, deed: NodeAction)
    requires Safe(s) && rid in s.nodes
    ensures NodeStep(s, s.nodes[rid], deed).mem.checkpoint >= s.nodes[rid].mem.checkpoint
  {
    var node := s.nodes[rid];
    match deed
    case DeliverFrame(faults) =>
      if NextFrame(s, node).Some? {
        NextFrameDeliverable(s, rid);
        CommitMovesForward(s.core.rows, s.core.lastSeq, node.mem, NextFrame(s, node).value, faults);
      }
    case InstallSnapshot(write) =>
      if node.phase.GotSnapshot? {
        InstallMovesForward(s.core.rows, s.core.lastSeq, s.sessions, node, write);
      }
    case _ =>
  }

  lemma OthersKeepNode(cfg: CoreConfig, s: System, step: Step, rid: nat)
    requires rid in s.nodes && !step.NodeDoes?
    ensures rid in Do(cfg, s, step).nodes && Do(cfg, s, step).nodes[rid].mem == s.nodes[rid].mem
  {
  }

  lemma CheckpointStep(cfg: CoreConfig, s: System, step: Step, rid: nat)
    requires Safe(s) && rid in s.nodes
    ensures rid in Do(cfg, s, step).nodes
    ensures Do(cfg, s, step).nodes[rid].mem.checkpoint >= s.nodes[rid].mem.checkpoint
  {
    match step
    case NodeDoes(r, deed) =>
      if r == rid {
        NodeMovesForward(s, rid, deed);
      }
    case _ => OthersKeepNode(cfg, s, step, rid);
  }

  lemma RunLast(cfg: CoreConfig, s: System, steps: seq<Step>, more: seq<Step>)
    requires more != []
    ensures Run(cfg, s, steps + more) == Do(cfg, Run(cfg, s, steps + more[..|more| - 1]), more[|more| - 1])
  {
    assert (steps + more)[..|steps + more| - 1] == steps + more[..|more| - 1];
  }

  /** The durable checkpoint of a replica never goes back, whatever happens and whatever fails, replica and core
      restarts included; although the store would overwrite it with any number, and a snapshot's number is compared
      with memory only. */
  lemma {:induction false} CheckpointNeverFalls(
    cfg: CoreConfig, rows: seq<Event>, now: int, steps: seq<Step>, more: seq<Step>, rid: nat)
    requires cfg.defaultMarket != "" && StartLog(rows)
    requires rid in Run(cfg, Init(cfg, rows, now), steps).nodes
    ensures
      var before, after := Run(cfg, Init(cfg, rows, now), steps), Run(cfg, Init(cfg, rows, now), steps + more);
      rid in after.nodes && after.nodes[rid].mem.checkpoint >= before.nodes[rid].mem.checkpoint
    decreases |more|
  {
    if more == [] {
      assert steps + more == steps;
    } else {
      var init, last := more[..|more| - 1], more[|more| - 1];
      CheckpointNeverFalls(cfg, rows, now, steps, init, rid);
      RunsAreSafe(cfg, rows, now, steps + init);
      RunLast(cfg, Init(cfg, rows, now), steps, more);
      CheckpointStep(cfg, Run(cfg, Init(cfg, rows, now), steps + init), last, rid);
    }
  }

  /** A first snapshot, served now and with its number stored, bootstraps a replica if and only if the core's number
      is not behind the checkpoint. It can be behind by one: the replica's last event is then the newest row, and the
      core has not yet learnt that the insert of that row took effect. */
  lemma BootstrapSucceeds(cfg: CoreConfig, rows: seq<Event>, s: System, rid: nat)
    requires Reachable(cfg, rows, s, Anything) && rid in s.nodes && !s.nodes[rid].mem.bootstrapped
    requires s.pc == Idle && s.nodes[rid].phase == AwaitSnapshot
    ensures
      var node := s.nodes[rid];
      var after := Install(NodeStep(s, node, ServeSnapshot), Done).mem;
      && (after.bootstrapped <==> node.mem.checkpoint <= s.core.lastSeq)
      && (after.bootstrapped ==> after.lastApplied == after.checkpoint == s.core.lastSeq)
      && (!after.bootstrapped ==>
          && after == node.mem
          && node.mem.checkpoint == node.mem.lastApplied == |s.core.rows| == s.core.lastSeq + 1)
  {
    ReachableIsSafe(cfg, rows, s, Anything);
    BootstrapOutcome(s.core, s.sessions, s.nodes[rid]);
  }

  lemma BootstrapOutcome(core: Core, sessions: map<nat, Session>, node: Node)
    requires LogInv(core) && MarketsInv(core) && NodeSafe(core.rows, core.lastSeq, sessions, node)
    requires !node.mem.bootstrapped
    ensures
      var after := Install(node.(phase := GotSnapshot(TakeSnapshot(core))), Done).mem;
      && (after.bootstrapped <==> node.mem.checkpoint <= core.lastSeq)
      && (after.bootstrapped ==> after.lastApplied == after.checkpoint == core.lastSeq)
      && (!after.bootstrapped ==>
          && after == node.mem
          && node.mem.checkpoint == node.mem.lastApplied == |core.rows| == core.lastSeq + 1)
  {
    SnapshotPasses(TakeSnapshot(core), node.mem);
  }

  /** Every snapshot the core serves passes the replica's checks unless it is behind what the replica applied. */
  lemma SnapshotsAreAcceptable(cfg: CoreConfig, rows: seq<Event>, s: System, minSeq: int)
    requires Reachable(cfg, rows, s, Anything)
    ensures SnapshotAcceptable(TakeSnapshot(s.core), minSeq) <==> minSeq <= s.core.lastSeq
  {
    ReachableIsSafe(cfg, rows, s, Anything);
  }

  // ---------- Histories ----------

  lemma MentionedHasHistory(history: map<string, seq<Event>>, events: seq<Event>, i: nat)
    requires HistoriesOf(history, events) && i < |events|
    ensures events[i].marketId in history
  {
    var m := events[i].marketId;
    assert HistoryOf(history, m) == About(events, m);
    AboutLast(events, m);
  }

  /** A history ends with the last event about its market. */
  lemma {:induction false} AboutLast(events: seq<Event>, m: string)
    ensures
      var k := LastIndex(events, m);
      if k < 0 then About(events, m) == []
      else About(events, m) != [] && About(events, m)[|About(events, m)| - 1] == events[k]
  {
    if events == [] {
    } else {
      AboutLast(events[..|events| - 1], m);
    }
  }

  /** The log events a replica has applied since its snapshot. */
  function Since(rows: seq<Event>, node: Node): seq<Event>
    requires 0 <= node.baseSeq <= node.mem.lastApplied <= |rows|
  {
    rows[node.baseSeq..node.mem.lastApplied]
  }

  /** Under every fault, and from every inherited log: the markets of a bootstrapped replica are those of its
      snapshot with exactly the log events since then applied, in order, each once. */
  lemma MemoryIsAFold(cfg: CoreConfig, rows: seq<Event>, s: System, rid: nat)
    requires Reachable(cfg, rows, s, Anything) && rid in s.nodes && s.nodes[rid].mem.bootstrapped
    ensures
      var node := s.nodes[rid];
      && 0 <= node.baseSeq <= node.mem.lastApplied <= |s.core.rows|
      && node.mem.markets == Fold(node.base, Since(s.core.rows, node))
  {
    ReachableNode(cfg, rows, s, rid);
  }

  /** A market's history is the ascending run of the events about it, and the market is its last payload. */
  ghost predicate HistoryBacks(rows: seq<Event>, node: Node, m: string)
    requires 0 <= node.baseSeq <= node.mem.lastApplied <= |rows| && m in node.mem.history
  {
    var history := node.mem.history[m];
    && history == About(Since(rows, node), m)
    && history != [] && Ordered(history)
    && m in node.mem.markets && node.mem.markets[m] == MarketOf(history[|history| - 1])
  }

  lemma HistoryOfMarket(rows: seq<Event>, node: Node, m: string)
    requires GapFree(rows) && MemorySafe(rows, node) && node.mem.bootstrapped && m in node.mem.history
    ensures HistoryBacks(rows, node, m)
  {
    var events := Since(rows, node);
    assert HistoryOf(node.mem.history, m) == About(events, m);
    AboutOrdered(events, m);
    AboutLast(events, m);
    FoldAt(node.base, events, m);
  }

  lemma HistoriesTotal(rows: seq<Event>, node: Node, ids: seq<string>)
    requires MemorySafe(rows, node) && node.mem.bootstrapped
    requires forall i, j :: 0 <= i < j < |ids| ==> ids[i] != ids[j]
    requires forall m :: m in node.mem.history ==> m in ids
    ensures TotalLength(Since(rows, node), ids) == node.mem.lastApplied - node.baseSeq
  {
    var events := Since(rows, node);
    forall i | 0 <= i < |events| ensures events[i].marketId in ids {
      MentionedHasHistory(node.mem.history, events, i);
    }
    HistoriesPartition(events, ids);
  }

  /** The per-market histories of a bootstrapped replica partition the log events applied since its snapshot: each
      is the ascending run of the events about its market, together they are as long, and a market with a history
      is its last payload. The list of ids is any enumeration of the histories' keys. */
  lemma HistoriesPartitionTheLog(cfg: CoreConfig, rows: seq<Event>, s: System, rid: nat, ids: seq<string>)
    requires Reachable(cfg, rows, s, Anything) && rid in s.nodes && s.nodes[rid].mem.bootstrapped
    requires forall i, j :: 0 <= i < j < |ids| ==> ids[i] != ids[j]
    requires forall m :: m in s.nodes[rid].mem.history ==> m in ids
    ensures
      var node := s.nodes[rid];
      && 0 <= node.baseSeq <= node.mem.lastApplied <= |s.core.rows|
      && TotalLength(Since(s.core.rows, node), ids) == node.mem.lastApplied - node.baseSeq
      && (forall m :: m in node.mem.history ==> HistoryBacks(s.core.rows, node, m))
  {
    ReachableNode(cfg, rows, s, rid);
    var node := s.nodes[rid];
    HistoriesTotal(s.core.rows, node, ids);
    forall m | m in node.mem.history ensures HistoryBacks(s.core.rows, node, m) {
      HistoryOfMarket(s.core.rows, node, m);
    }
  }
}
