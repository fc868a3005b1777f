/** What every replica step keeps. */
module ReplicaSafety {
  import opened Domain
  import opened EventLog
  import opened CoreState
  import opened CoreHistory
  import opened Stream
  import opened ReplicaState
  import opened Protocol
  import opened ProtocolSafety

  // ---------- One frame ----------

  /** A frame a session has written is the log event of its number. */
  lemma FrameIsRow(rows: seq<Event>, sess: Session, read: nat)
    requires GapFree(rows) && Contiguous(sess.cur, sess.fromSeq, rows) && read < |sess.cur.written|
    ensures sess.fromSeq + read <= |rows|
    ensures sess.cur.written[read] == rows[sess.fromSeq + read - 1]
    ensures sess.cur.written[read].seqNo == sess.fromSeq + read
  {
  }

  /** A dedupe row for a log event carries that event's own number. */
  lemma DedupeRowNumber(rows: seq<Event>, r: Replica, n: nat)
    requires DistinctIds(rows) && TablesSafe(rows, r) && n < |rows|
    ensures rows[n].id in r.applied ==> r.applied[rows[n].id] == n + 1
  {
    if rows[n].id in r.applied {
      var k := r.applied[rows[n].id] - 1;
      assert rows[k].id == rows[n].id;
    }
  }

  /** A log event that is neither applied nor further than one ahead of memory. */
  ghost predicate Deliverable(rows: seq<Event>, r: Replica, evt: Event) {
    && GapFree(rows) && DistinctIds(rows)
    && TablesSafe(rows, r)
    && 1 <= evt.seqNo <= |rows| && rows[evt.seqNo - 1] == evt
    && WellFormed(evt)
    && Aligned(rows, r, evt.seqNo)
  }

  /** The durable half of applying an event. */
  function Committed(r: Replica, evt: Event): Replica {
    r.(applied := r.applied[evt.id := evt.seqNo], checkpoint := evt.seqNo)
  }

  /** What a delivered frame does, decided by where it stands: the next event is applied unless its commit already
      took effect unreported, and only the event after such a one is a gap. */
  lemma DeliveredOutcome(rows: seq<Event>, r: Replica, evt: Event, faults: Faults)
    requires Deliverable(rows, r, evt)
    ensures
      var (after, outcome) := ProcessEvent(r, evt, faults.lookup, faults.commit);
      var seen := evt.id in r.applied;
      && (!faults.lookup ==> outcome == StoreFailed && after == r)
      && (faults.lookup ==>
          && (outcome == Gap <==> evt.seqNo == r.lastApplied + 2)
          && (outcome == Gap ==> after == r)
          && (outcome == Duplicate <==> seen)
          && (outcome == Duplicate ==> evt.seqNo == r.lastApplied + 1 && after == SawSeq(r, evt.seqNo))
          && (outcome == Applied <==> evt.seqNo == r.lastApplied + 1 && !seen && faults.commit == Done)
          && (outcome == Applied ==>
              after == Remember(Committed(r, evt), evt, MarketOf(evt)))
          && (outcome == StoreFailed <==> evt.seqNo == r.lastApplied + 1 && !seen && faults.commit != Done)
          && (outcome == StoreFailed ==>
              after == if faults.commit == Lost then r else Committed(r, evt)))
      && (outcome == Applied || outcome == Duplicate || outcome == Gap || outcome == StoreFailed)
  {
    ValidatorsAcceptWellFormed(evt);
    DedupeRowNumber(rows, r, evt.seqNo - 1);
  }

  /** Writing the dedupe row of the next event. */
  lemma TablesAfterCommit(rows: seq<Event>, r: Replica, evt: Event)
    requires Deliverable(rows, r, evt) && evt.seqNo == r.lastApplied + 1 && evt.id !in r.applied
    ensures TablesSafe(rows, Committed(r, evt))
    ensures TablesSafe(rows, Committed(r, evt).(lastApplied := evt.seqNo))
  {
  }

  lemma HistoriesAppend(history: map<string, seq<Event>>, events: seq<Event>, evt: Event)
    requires HistoriesOf(history, events)
    ensures HistoriesOf(history[evt.marketId := HistoryOf(history, evt.marketId) + [evt]], events + [evt])
  {
    var history' := history[evt.marketId := HistoryOf(history, evt.marketId) + [evt]];
    forall m ensures HistoryOf(history', m) == About(events + [evt], m) {
      assert (events + [evt])[..|events|] == events;
      assert HistoryOf(history, m) == About(events, m);
    }
  }

  lemma FoldAppend(base: map<string, MarketState>, events: seq<Event>, evt: Event)
    ensures Fold(base, events + [evt]) == Fold(base, events)[evt.marketId := MarketOf(evt)]
  {
    assert (events + [evt])[..|events|] == events;
  }

  lemma MemoryAfterApply(rows: seq<Event>, node: Node, evt: Event)
    requires MemorySafe(rows, node) && node.mem.bootstrapped && TablesSafe(rows, node.mem)
    requires Deliverable(rows, node.mem, evt) && evt.seqNo == node.mem.lastApplied + 1
    ensures
      MemorySafe(rows, node.(mem := Remember(Committed(node.mem, evt), evt, MarketOf(evt))))
  {
    var r := node.mem;
    var events := rows[node.baseSeq..r.lastApplied];
    assert rows[node.baseSeq..evt.seqNo] == events + [evt];
    HistoriesAppend(r.history, events, evt);
    FoldAppend(node.base, events, evt);
  }

  lemma AppliedTables(rows: seq<Event>, r: Replica, evt: Event)
    requires Deliverable(rows, r, evt) && evt.seqNo == r.lastApplied + 1 && evt.id !in r.applied
    ensures TablesSafe(rows, Remember(Committed(r, evt), evt, MarketOf(evt)))
  {
    TablesAfterCommit(rows, r, evt);
  }

  /** A node reading a frame at its place. */
  ghost predicate Receives(rows: seq<Event>, lastSeq: int, sessions: map<nat, Session>, node: Node, evt: Event) {
    && NodeSafe(rows, lastSeq, sessions, node) && node.phase.Reading? && |rows| - 1 <= lastSeq
    && node.phase.read < |sessions[node.phase.sid].cur.written|
    && Deliverable(rows, node.mem, evt)
    && evt.seqNo == sessions[node.phase.sid].fromSeq + node.phase.read
  }

  lemma AppliedKeeps(rows: seq<Event>, lastSeq: int, sessions: map<nat, Session>, node: Node, evt: Event)
    requires Receives(rows, lastSeq, sessions, node, evt)
    requires evt.seqNo == node.mem.lastApplied + 1 && evt.id !in node.mem.applied
    ensures
      var after := Remember(Committed(node.mem, evt), evt, MarketOf(evt));
      NodeSafe(rows, lastSeq, sessions, node.(mem := after, phase := Reading(node.phase.sid, node.phase.read + 1)))
  {
    AppliedTables(rows, node.mem, evt);
    MemoryAfterApply(rows, node, evt);
  }

  lemma DuplicateKeeps(rows: seq<Event>, lastSeq: int, sessions: map<nat, Session>, node: Node, evt: Event)
    requires Receives(rows, lastSeq, sessions, node, evt)
    requires evt.seqNo == node.mem.lastApplied + 1 && evt.id in node.mem.applied
    ensures NodeSafe(rows, lastSeq, sessions,
                     node.(mem := SawSeq(node.mem, evt.seqNo), phase := Reading(node.phase.sid, node.phase.read + 1)))
  {
    var after := SawSeq(node.mem, evt.seqNo);
    assert TablesSafe(rows, after);
    assert Aligned(rows, after, evt.seqNo + 1);
  }

  lemma FailedKeeps(rows: seq<Event>, lastSeq: int, sessions: map<nat, Session>, node: Node, evt: Event, stored: bool)
    requires Receives(rows, lastSeq, sessions, node, evt)
    requires stored ==> evt.seqNo == node.mem.lastApplied + 1 && evt.id !in node.mem.applied
    ensures
      var after := if stored then Committed(node.mem, evt) else node.mem;
      NodeSafe(rows, lastSeq, sessions, node.(mem := after, phase := Ready))
  {
    if stored {
      TablesAfterCommit(rows, node.mem, evt);
    }
  }

  lemma GapKeeps(rows: seq<Event>, lastSeq: int, sessions: map<nat, Session>, node: Node, evt: Event)
    requires Receives(rows, lastSeq, sessions, node, evt) && evt.seqNo == node.mem.lastApplied + 2
    ensures NodeSafe(rows, lastSeq, sessions, node.(phase := AwaitSnapshot))
  {
    assert AppliedUpTo(node.mem, lastSeq);
    assert node.mem.lastApplied < lastSeq;
  }

  lemma DeliverKeeps(rows: seq<Event>, lastSeq: int, sessions: map<nat, Session>, node: Node, evt: Event,
                     faults: Faults)
    requires Receives(rows, lastSeq, sessions, node, evt)
    ensures NodeSafe(rows, lastSeq, sessions, Deliver(node, evt, faults))
  {
    var r := node.mem;
    DeliveredOutcome(rows, r, evt, faults);
    var outcome := ProcessEvent(r, evt, faults.lookup, faults.commit).1;
    match outcome
    case Applied => AppliedKeeps(rows, lastSeq, sessions, node, evt);
    case Duplicate => DuplicateKeeps(rows, lastSeq, sessions, node, evt);
    case StoreFailed => FailedKeeps(rows, lastSeq, sessions, node, evt, faults.lookup && faults.commit != Lost);
    case Gap => GapKeeps(rows, lastSeq, sessions, node, evt);
  }

  // ---------- The other steps ----------

  lemma RestartKeeps(rows: seq<Event>, lastSeq: int, sessions: map<nat, Session>, node: Node)
    requires NodeSafe(rows, lastSeq, sessions, node)
    ensures NodeSafe(rows, lastSeq, sessions, Node(ReplicaState.Restart(node.mem), Ready, map[], 0))
  {
  }

  lemma RequestKeeps(rows: seq<Event>, lastSeq: int, sessions: map<nat, Session>, node: Node)
    requires NodeSafe(rows, lastSeq, sessions, node) && !node.mem.bootstrapped
    ensures NodeSafe(rows, lastSeq, sessions, node.(phase := AwaitSnapshot))
  {
  }

  lemma ServeKeeps(core: Core, sessions: map<nat, Session>, node: Node)
    requires LogInv(core) && MarketsInv(core)
    requires NodeSafe(core.rows, core.lastSeq, sessions, node) && node.phase == AwaitSnapshot
    ensures NodeSafe(core.rows, core.lastSeq, sessions, node.(phase := GotSnapshot(TakeSnapshot(core))))
  {
  }

  /** The core's snapshots pass the replica's checks, unless they are behind what the replica has applied. */
  lemma SnapshotPasses(snapshot: Snapshot, r: Replica)
    requires SnapshotSafe(snapshot)
    ensures SnapshotAcceptable(snapshot, r.lastApplied) <==> r.lastApplied <= snapshot.lastSeq
  {
  }

  lemma InstallKeeps(rows: seq<Event>, lastSeq: int, sessions: map<nat, Session>, node: Node, write: WriteOutcome)
    requires NodeSafe(rows, lastSeq, sessions, node) && node.phase.GotSnapshot?
    ensures NodeSafe(rows, lastSeq, sessions, Install(node, write))
  {
    var snapshot, r := node.phase.snapshot, node.mem;
    SnapshotPasses(snapshot, r);
    if r.lastApplied <= snapshot.lastSeq {
      assert AppliedUpTo(r, snapshot.lastSeq);
      if write == Done {
        assert rows[snapshot.lastSeq..snapshot.lastSeq] == [];
        assert TablesSafe(rows, Install(node, write).mem);
      }
    }
  }

  /** A frame of a session at the replica's place is deliverable. */
  lemma FrameDeliverable(rows: seq<Event>, announced: int, lastSeq: int, sessions: map<nat, Session>, node: Node)
    requires GapFree(rows) && DistinctIds(rows) && forall i :: 0 <= i < |rows| ==> WellFormed(rows[i])
    requires NodeSafe(rows, lastSeq, sessions, node) && node.phase.Reading?
    requires node.phase.sid in sessions && SessionSafe(rows, announced, sessions[node.phase.sid])
    requires node.phase.read < |sessions[node.phase.sid].cur.written|
    ensures
      var sess := sessions[node.phase.sid];
      var evt := sess.cur.written[node.phase.read];
      Deliverable(rows, node.mem, evt) && evt.seqNo == sess.fromSeq + node.phase.read
  {
    FrameIsRow(rows, sessions[node.phase.sid], node.phase.read);
  }

  /** The next frame of a reading replica is deliverable. */
  lemma NextFrameDeliverable(s: System, rid: nat)
    requires Safe(s) && rid in s.nodes && NextFrame(s, s.nodes[rid]).Some?
    ensures
      var node := s.nodes[rid];
      var evt := NextFrame(s, node).value;
      && Deliverable(s.core.rows, node.mem, evt)
      && evt.seqNo == s.sessions[node.phase.sid].fromSeq + node.phase.read
  {
    FrameDeliverable(s.core.rows, s.announced, s.core.lastSeq, s.sessions, s.nodes[rid]);
  }

  lemma DeliverFrameKeeps(s: System, rid: nat, faults: Faults)
    requires Safe(s) && rid in s.nodes
    ensures NodeSafe(s.core.rows, s.core.lastSeq, s.sessions, DeliverNext(s, s.nodes[rid], faults))
  {
    if NextFrame(s, s.nodes[rid]).Some? {
      NextFrameDeliverable(s, rid);
      DeliverKeeps(s.core.rows, s.core.lastSeq, s.sessions, s.nodes[rid], NextFrame(s, s.nodes[rid]).value, faults);
    }
  }

  lemma NodeKeeps(s: System, rid: nat, deed: NodeAction)
    requires Safe(s) && rid in s.nodes
    ensures NodeSafe(s.core.rows, s.core.lastSeq, s.sessions, NodeStep(s, s.nodes[rid], deed))
  {
    var node := s.nodes[rid];
    var rows, lastSeq := s.core.rows, s.core.lastSeq;
    assert NodeSafe(rows, lastSeq, s.sessions, node);
    match deed
    case Restart =>
      RestartKeeps(rows, lastSeq, s.sessions, node);
    case RequestSnapshot =>
      if node.phase == Ready && !node.mem.bootstrapped {
        RequestKeeps(rows, lastSeq, s.sessions, node);
      }
    case ServeSnapshot =>
      if node.phase == AwaitSnapshot && s.pc == Idle {
        ServeKeeps(s.core, s.sessions, node);
      }
    case DropSnapshot =>
    case InstallSnapshot(write) =>
      if node.phase.GotSnapshot? {
        InstallKeeps(rows, lastSeq, s.sessions, node, write);
      }
    case DeliverFrame(faults) =>
      DeliverFrameKeeps(s, rid, faults);
    case Disconnect =>
  }

  lemma NodeSafeStep(s: System, rid: nat, deed: NodeAction)
    requires Safe(s)
    ensures Safe(DoNode(s, rid, deed))
  {
    if rid in s.nodes {
      NodeKeeps(s, rid, deed);
      NodeStepSafe(s, DoNode(s, rid, deed), rid, NodeStep(s, s.nodes[rid], deed));
    }
  }

  lemma AddNodeSafe(s: System, rid: nat)
    requires Safe(s)
    ensures Safe(DoAddNode(s, rid))
  {
    if rid !in s.nodes {
      NodeStepSafe(s, DoAddNode(s, rid), rid, Node(NewReplica(map[], 0), Ready, map[], 0));
    }
  }

  // ---------- Runs ----------

  lemma StepSafe(cfg: CoreConfig, s: System, step: Step)
    requires cfg.defaultMarket != "" && Safe(s)
    ensures Safe(Do(cfg, s, step))
  {
    match step
    case CoreDoes(act) => CoreSafeStep(cfg, s, act);
    case OpenSession(sid, fromSeq) => OpenSessionSafe(s, sid, fromSeq);
    case SessionDoes(sid, move) => SessionSafeStep(s, sid, move);
    case AddNode(rid) => AddNodeSafe(s, rid);
    case OpenStream(rid, sid) => OpenStreamSafe(s, rid, sid);
    case NodeDoes(rid, deed) => NodeSafeStep(s, rid, deed);
  }

  /** A log the core may start from: what earlier runs of the core can have left. */
  ghost predicate StartLog(rows: seq<Event>) {
    GapFree(rows) && DistinctIds(rows) && forall i :: 0 <= i < |rows| ==> WellFormed(rows[i])
  }

  /** Every state of every run is safe: from any inherited log, over all interleavings of signals, ticks, sessions,
      replicas, disconnects and restarts, and under every fault. */
  lemma {:induction false} RunsAreSafe(cfg: CoreConfig, rows: seq<Event>, now: int, steps: seq<Step>)
    requires cfg.defaultMarket != "" && StartLog(rows)
    ensures Safe(Run(cfg, Init(cfg, rows, now), steps))
  {
    if steps == [] {
    } else {
      RunsAreSafe(cfg, rows, now, steps[..|steps| - 1]);
      StepSafe(cfg, Run(cfg, Init(cfg, rows, now), steps[..|steps| - 1]), steps[|steps| - 1]);
    }
  }
}
