/** Whether one undisturbed round of a replica's main loop brings it level with the core. */
module CatchUpRuns {
  import opened Domain
  import opened EventLog
  import opened CoreState
  import opened Stream
  import opened ReplicaState
  import opened Protocol
  import opened ProtocolSafety
  import opened ReplicaSafety
  import opened ProtocolTheorems
  import opened TickRuns
  import opened ReplicaRuns

  const NO_FAULTS := Faults(true, Done)

  function DeliverStep(rid: nat): Step {
    NodeDoes(rid, DeliverFrame(NO_FAULTS))
  }

  /** So many deliveries; those for which there is no frame, or no reader, do nothing. */
  function Frames(rid: nat, k: nat): seq<Step> {
    if k == 0 then [] else [DeliverStep(rid)] + Frames(rid, k - 1)
  }

  /** A round with nothing in between and no fault: open a stream, read its backlog, take so many frames, and refresh
      if one of them was a gap. */
  function UndisturbedRound(rid: nat, sid: nat, k: nat): seq<Step> {
    [OpenStream(rid, sid)] + [SessionDoes(sid, LoadBacklog)] + Frames(rid, k) + RefreshSteps(rid, Done)
  }

  // ---------- The frames of a round ----------

  /** A replica after one delivery from its session. */
  function ReadOne(sessions: map<nat, Session>, node: Node): Node {
    if node.phase.Reading? && node.phase.sid in sessions &&
       node.phase.read < |sessions[node.phase.sid].cur.written| then
      Deliver(node, sessions[node.phase.sid].cur.written[node.phase.read], NO_FAULTS)
    else node
  }

  function ReadMany(sessions: map<nat, Session>, node: Node, k: nat): Node
    decreases k
  {
    if k == 0 then node else ReadMany(sessions, ReadOne(sessions, node), k - 1)
  }

  /** Deliveries move nothing but their reader. */
  lemma {:induction false} RunFrames(cfg: CoreConfig, s: System, rid: nat, k: nat)
    requires rid in s.nodes
    ensures Run(cfg, s, Frames(rid, k)) == s.(nodes := s.nodes[rid := ReadMany(s.sessions, s.nodes[rid], k)])
    decreases k
  {
    if k == 0 {
      assert s.nodes[rid := s.nodes[rid]] == s.nodes;
    } else {
      var node' := ReadOne(s.sessions, s.nodes[rid]);
      var s' := s.(nodes := s.nodes[rid := node']);
      RunConcat(cfg, s, [DeliverStep(rid)], Frames(rid, k - 1));
      RunOne(cfg, s, DeliverStep(rid));
      RunFrames(cfg, s', rid, k - 1);
      var last := ReadMany(s.sessions, node', k - 1);
      assert s.nodes[rid := node'][rid := last] == s.nodes[rid := last];
    }
  }

  /** Without a gap, the refresh does nothing. */
  lemma RefreshUnneeded(cfg: CoreConfig, s: System, rid: nat)
    requires rid in s.nodes && s.nodes[rid].phase.Reading?
    ensures Run(cfg, s, RefreshSteps(rid, Done)) == s
  {
    var serve, install := NodeDoes(rid, ServeSnapshot), NodeDoes(rid, InstallSnapshot(Done));
    RunConcat(cfg, s, [serve], [install]);
    RunOne(cfg, s, serve);
    RunOne(cfg, Do(cfg, s, serve), install);
    assert s.nodes[rid := s.nodes[rid]] == s.nodes;
  }

  /** After a gap nothing is read. */
  lemma {:induction false} ReadNothing(sessions: map<nat, Session>, node: Node, k: nat)
    requires !node.phase.Reading?
    ensures ReadMany(sessions, node, k) == node
  {
    if k > 0 {
      ReadNothing(sessions, node, k - 1);
    }
  }

  ghost predicate Log(rows: seq<Event>, lastSeq: int) {
    && GapFree(rows) && DistinctIds(rows) && |rows| - 1 <= lastSeq <= |rows|
    && forall i :: 0 <= i < |rows| ==> WellFormed(rows[i])
  }

  /** A safe replica reads a session that has written the log from number from on, and is at number at. */
  ghost predicate Reads(rows: seq<Event>, lastSeq: int, sessions: map<nat, Session>, node: Node, from: int, at: int) {
    && NodeSafe(rows, lastSeq, sessions, node) && node.phase.Reading?
    && var sess := sessions[node.phase.sid];
       && sess.fromSeq == from && 1 <= from <= at <= |rows| + 1
       && sess.cur.written == rows[from - 1..]
       && from + node.phase.read == at
  }

  /** The frame at its place is the event of that number. */
  lemma FrameHere(rows: seq<Event>, lastSeq: int, sessions: map<nat, Session>, node: Node, from: int, at: int)
    requires Log(rows, lastSeq) && Reads(rows, lastSeq, sessions, node, from, at) && at <= |rows|
    ensures Deliverable(rows, node.mem, rows[at - 1])
    ensures Receives(rows, lastSeq, sessions, node, rows[at - 1])
    ensures ReadOne(sessions, node) == Deliver(node, rows[at - 1], NO_FAULTS)
  {
  }

  /** A replica whose next event is not in the dedupe table applies it. */
  lemma ReadNext(rows: seq<Event>, lastSeq: int, sessions: map<nat, Session>, node: Node, from: int, at: int)
    requires Log(rows, lastSeq) && Reads(rows, lastSeq, sessions, node, from, at) && at <= |rows|
    requires at == node.mem.lastApplied + 1 && AppliedUpTo(node.mem, node.mem.lastApplied)
    ensures
      var node' := ReadOne(sessions, node);
      && Reads(rows, lastSeq, sessions, node', from, at + 1)
      && node'.mem.lastApplied == at && AppliedUpTo(node'.mem, at)
  {
    var r, evt := node.mem, rows[at - 1];
    FrameHere(rows, lastSeq, sessions, node, from, at);
    DedupeRowNumber(rows, r, at - 1);
    DeliveredOutcome(rows, r, evt, NO_FAULTS);
    DeliverKeeps(rows, lastSeq, sessions, node, evt, NO_FAULTS);
  }

  /** And so every one of them, until it has applied the whole log. */
  lemma {:induction false} ReadToTheEnd(
    rows: seq<Event>, lastSeq: int, sessions: map<nat, Session>, node: Node, from: int, at: int, k: nat)
    requires Log(rows, lastSeq) && Reads(rows, lastSeq, sessions, node, from, at) && k == |rows| + 1 - at
    requires at == node.mem.lastApplied + 1 && AppliedUpTo(node.mem, node.mem.lastApplied)
    ensures
      var node' := ReadMany(sessions, node, k);
      node'.phase.Reading? && node'.mem.lastApplied == |rows|
    decreases k
  {
    if k > 0 {
      ReadNext(rows, lastSeq, sessions, node, from, at);
      ReadToTheEnd(rows, lastSeq, sessions, ReadOne(sessions, node), from, at + 1, k - 1);
    }
  }

  /** A replica whose next event was committed unreported skips its redelivery. */
  lemma ReadDuplicate(rows: seq<Event>, lastSeq: int, sessions: map<nat, Session>, node: Node, from: int, at: int)
    requires Log(rows, lastSeq) && Reads(rows, lastSeq, sessions, node, from, at) && at <= |rows|
    requires at == node.mem.lastApplied + 1 && Skipped(rows, node.mem)
    ensures
      var node' := ReadOne(sessions, node);
      && Reads(rows, lastSeq, sessions, node', from, at + 1)
      && node'.mem.lastApplied == node.mem.lastApplied
  {
    var r, evt := node.mem, rows[at - 1];
    FrameHere(rows, lastSeq, sessions, node, from, at);
    DeliveredOutcome(rows, r, evt, NO_FAULTS);
    DeliverKeeps(rows, lastSeq, sessions, node, evt, NO_FAULTS);
  }

  /** The frame after that one is a gap. */
  lemma ReadGap(rows: seq<Event>, lastSeq: int, sessions: map<nat, Session>, node: Node, from: int, at: int, k: nat)
    requires Log(rows, lastSeq) && Reads(rows, lastSeq, sessions, node, from, at) && at <= |rows|
    requires at == node.mem.lastApplied + 2 && k > 0
    ensures ReadMany(sessions, node, k) == node.(phase := AwaitSnapshot)
    ensures node.mem.lastApplied < lastSeq
  {
    FrameHere(rows, lastSeq, sessions, node, from, at);
    DeliveredOutcome(rows, node.mem, rows[at - 1], NO_FAULTS);
    ReadNothing(sessions, node.(phase := AwaitSnapshot), k - 1);
  }

  /** What all the frames of a round do. */
  lemma RoundReads(rows: seq<Event>, lastSeq: int, sessions: map<nat, Session>, node: Node, k: nat)
    requires Log(rows, lastSeq)
    requires Reads(rows, lastSeq, sessions, node, node.mem.lastApplied + 1, node.mem.lastApplied + 1)
    requires k == |rows| - node.mem.lastApplied
    ensures
      var r, node' := node.mem, ReadMany(sessions, node, k);
      if Skipped(rows, r) && r.lastApplied + 2 <= |rows| then
        node'.phase == AwaitSnapshot && node'.mem.lastApplied == r.lastApplied < lastSeq
      else
        node'.phase.Reading? && node'.mem.lastApplied == if Skipped(rows, r) then r.lastApplied else |rows|
  {
    var r, at := node.mem, node.mem.lastApplied + 1;
    if !Skipped(rows, r) {
      NothingAhead(rows, r);
      ReadToTheEnd(rows, lastSeq, sessions, node, at, at, k);
    } else {
      ReadDuplicate(rows, lastSeq, sessions, node, at, at);
      if k > 1 {
        ReadGap(rows, lastSeq, sessions, ReadOne(sessions, node), at, at + 1, k - 1);
      }
    }
  }

  lemma NothingAhead(rows: seq<Event>, r: Replica)
    requires TablesSafe(rows, r) && !Skipped(rows, r)
    ensures AppliedUpTo(r, r.lastApplied)
  {
    forall id | id in r.applied ensures r.applied[id] <= r.lastApplied {
      assert rows[r.applied[id] - 1].id == id;
    }
  }

  // ---------- The round ----------

  /** Its first two steps. */
  lemma RoundOpens(cfg: CoreConfig, s: System, rid: nat, sid: nat)
    requires LogInv(s.core) && CanOpen(s, rid, sid)
    requires NodeSafe(s.core.rows, s.core.lastSeq, s.sessions, s.nodes[rid])
    ensures
      var s' := Run(cfg, s, [OpenStream(rid, sid)] + [SessionDoes(sid, LoadBacklog)]);
      var from := s.nodes[rid].mem.lastApplied + 1;
      && s'.core == s.core && s'.pc == s.pc && rid in s'.nodes
      && s'.nodes[rid] == s.nodes[rid].(phase := Reading(sid, 0))
      && Reads(s.core.rows, s.core.lastSeq, s'.sessions, s'.nodes[rid], from, from)
  {
    SessionOpens(cfg, s, rid, sid);
    ReaderOpens(s.core.rows, s.core.lastSeq, s.sessions, s.nodes[rid], sid, |s.sent|);
  }

  lemma ReaderOpens(rows: seq<Event>, lastSeq: int, sessions: map<nat, Session>, node: Node, sid: nat, joined: nat)
    requires GapFree(rows) && NodeSafe(rows, lastSeq, sessions, node) && node.phase == Ready && node.mem.bootstrapped
    requires sid !in sessions
    ensures
      var from := node.mem.lastApplied + 1;
      var sessions' := sessions[sid := LoadedSession(NewSession(from, joined), rows)];
      Reads(rows, lastSeq, sessions', node.(phase := Reading(sid, 0)), from, from)
  {
    var sess := LoadedSession(NewSession(node.mem.lastApplied + 1, joined), rows);
    BacklogWrites(rows, node.mem.lastApplied);
    NodeGrow(rows, lastSeq, sessions, rows, lastSeq, sessions[sid := sess], node);
    StartReading(rows, lastSeq, sessions[sid := sess], node, sid);
  }

  lemma SessionOpens(cfg: CoreConfig, s: System, rid: nat, sid: nat)
    requires CanOpen(s, rid, sid)
    ensures
      var from := s.nodes[rid].mem.lastApplied + 1;
      Run(cfg, s, [OpenStream(rid, sid)] + [SessionDoes(sid, LoadBacklog)]) ==
        s.(sessions := s.sessions[sid := LoadedSession(NewSession(from, |s.sent|), s.core.rows)],
           nodes := s.nodes[rid := s.nodes[rid].(phase := Reading(sid, 0))])
  {
    var open, load := OpenStream(rid, sid), SessionDoes(sid, LoadBacklog);
    var started := NewSession(s.nodes[rid].mem.lastApplied + 1, |s.sent|);
    RunConcat(cfg, s, [open], [load]);
    RunOne(cfg, s, open);
    RunOne(cfg, Do(cfg, s, open), load);
    assert s.sessions[sid := started][sid := LoadedSession(started, s.core.rows)] ==
           s.sessions[sid := LoadedSession(started, s.core.rows)];
  }

  lemma BacklogWrites(rows: seq<Event>, n: nat)
    requires GapFree(rows) && n <= |rows|
    ensures AfterBacklog(n + 1, rows).written == rows[n..]
  {
    FromIsSuffix(rows, n + 1);
    WriteAllAppends(Cursor(n + 1, []), From(rows, n + 1));
  }

  /** The newest event is logged and counted, and the replica's commit of it took effect unreported. */
  predicate Stuck(core: Core, r: Replica) {
    r.lastApplied + 1 == core.lastSeq == |core.rows| && Skipped(core.rows, r)
  }

  /** The frames and the refresh, once the backlog is there. */
  lemma RestOfRound(cfg: CoreConfig, s: System, rid: nat, k: nat)
    requires s.pc == Idle && LogInv(s.core) && MarketsInv(s.core) && rid in s.nodes
    requires
      var from := s.nodes[rid].mem.lastApplied + 1;
      Reads(s.core.rows, s.core.lastSeq, s.sessions, s.nodes[rid], from, from)
    requires k == |s.core.rows| - s.nodes[rid].mem.lastApplied
    ensures
      var r := s.nodes[rid].mem;
      var s' := Run(cfg, Run(cfg, s, Frames(rid, k)), RefreshSteps(rid, Done));
      && s'.core == s.core && rid in s'.nodes
      && s'.nodes[rid].mem.lastApplied ==
           if !Skipped(s.core.rows, r) then |s.core.rows|
           else if r.lastApplied + 1 == |s.core.rows| then r.lastApplied
           else s.core.lastSeq
  {
    RoundReads(s.core.rows, s.core.lastSeq, s.sessions, s.nodes[rid], k);
    RunFrames(cfg, s, rid, k);
    var read := s.(nodes := s.nodes[rid := ReadMany(s.sessions, s.nodes[rid], k)]);
    if read.nodes[rid].phase.Reading? {
      RefreshUnneeded(cfg, read, rid);
    } else {
      RefreshIsARun(cfg, read, rid, Done);
      AcceptedRefresh(read, rid);
    }
  }

  /** From any reachable state with an idle core, one undisturbed round leaves a bootstrapped replica level with the
      core if and only if it is not stuck. A stuck replica skips the newest event as a duplicate, sees no gap, and
      stays one behind: however many such rounds it makes, only a further event shows it the gap. */
  lemma RoundCatchesUp(cfg: CoreConfig, rows: seq<Event>, s: System, rid: nat, sid: nat, k: nat)
    requires Reachable(cfg, rows, s, Anything) && s.pc == Idle && CanOpen(s, rid, sid)
    requires k == |s.core.rows| - s.nodes[rid].mem.lastApplied
    ensures
      var r := s.nodes[rid].mem;
      var s' := Run(cfg, s, UndisturbedRound(rid, sid, k));
      && s'.core == s.core && rid in s'.nodes
      && (s'.nodes[rid].mem.lastApplied >= s.core.lastSeq <==> !Stuck(s.core, r))
      && (Stuck(s.core, r) ==> s'.nodes[rid].mem.lastApplied == r.lastApplied)
  {
    ReachableIsSafe(cfg, rows, s, Anything);
    var begin := [OpenStream(rid, sid)] + [SessionDoes(sid, LoadBacklog)];
    RunConcat(cfg, s, begin + Frames(rid, k), RefreshSteps(rid, Done));
    RunConcat(cfg, s, begin, Frames(rid, k));
    ReachableNode(cfg, rows, s, rid);
    RoundOpens(cfg, s, rid, sid);
    RestOfRound(cfg, Run(cfg, s, begin), rid, k);
  }
}
