/** The replica's main loop as runs of the whole system. */
module ReplicaRuns {
  import opened Domain
  import opened CoreState
  import opened ReplicaState
  import opened Protocol
  import opened ProtocolSafety
  import opened ReplicaSafety
  import opened ProtocolTheorems
  import opened TickRuns

  /** One delivery after another to the same replica. */
  function Deliveries(rid: nat, faults: seq<Faults>): seq<Step> {
    seq(|faults|, i requires 0 <= i < |faults| => NodeDoes(rid, DeliverFrame(faults[i])))
  }

  /** These are the next frames in the session a replica reads. */
  ghost predicate Waiting(s: System, rid: nat, events: seq<Event>) {
    && rid in s.nodes && s.nodes[rid].phase.Reading?
    && var phase := s.nodes[rid].phase;
       && phase.sid in s.sessions
       && phase.read <= |s.sessions[phase.sid].cur.written|
       && events <= s.sessions[phase.sid].cur.written[phase.read..]
  }

  /** Where a replica is after frames the last of which may have stopped it. */
  function PhaseAfter(sid: nat, read: nat, stop: Option<Outcome>): NodePhase {
    match stop
    case None => Reading(sid, read)
    case Some(outcome) => if outcome == Gap then AwaitSnapshot else Ready
  }

  function Settled(s: System, rid: nat, mem: Replica, n: nat, stop: Option<Outcome>): System
    requires rid in s.nodes && s.nodes[rid].phase.Reading?
  {
    var node := s.nodes[rid];
    s.(nodes := s.nodes[rid := node.(mem := mem, phase := PhaseAfter(node.phase.sid, node.phase.read + n, stop))])
  }

  lemma ProcessedInit(r: Replica, events: seq<Event>, faults: seq<Faults>, r': Replica, stop: Option<Outcome>)
    requires Processed(r, events, faults, r', stop) && events != []
    ensures
      var n := |events| - 1;
      var before := Consume(r, events[..n], faults[..n]);
      var (after, outcome) := ProcessEvent(before, events[n], faults[n].lookup, faults[n].commit);
      && Processed(r, events[..n], faults[..n], before, None)
      && r' == after
      && stop == (if Continues(outcome) then None else Some(outcome))
  {
    var n := |events| - 1;
    forall i | 0 <= i < n ensures Continues(OutcomeAt(r, events[..n], faults[..n], i)) {
      assert events[..n][..i] == events[..i] && faults[..n][..i] == faults[..i];
      assert Continues(OutcomeAt(r, events, faults, i));
    }
    assert stop.None? ==> Continues(OutcomeAt(r, events, faults, n));
  }

  lemma RunDeliveries(cfg: CoreConfig, s: System, rid: nat, faults: seq<Faults>)
    requires faults != []
    ensures
      var n := |faults| - 1;
      Run(cfg, s, Deliveries(rid, faults)) ==
        DoNode(Run(cfg, s, Deliveries(rid, faults[..n])), rid, DeliverFrame(faults[n]))
  {
    var n := |faults| - 1;
    assert Deliveries(rid, faults)[..n] == Deliveries(rid, faults[..n]);
  }

  /** The frame loop of a connection is a run: each frame it takes is a delivery step, and what stops the loop
      decides where the main loop goes. */
  lemma {:induction false} ReadingIsARun(
    cfg: CoreConfig, s: System, rid: nat, events: seq<Event>, faults: seq<Faults>, r': Replica, stop: Option<Outcome>)
    requires Waiting(s, rid, events)
    requires Processed(s.nodes[rid].mem, events, faults, r', stop)
    ensures Run(cfg, s, Deliveries(rid, faults)) == Settled(s, rid, r', |events|, stop)
    decreases |events|
  {
    if events == [] {
      assert s.nodes[rid := s.nodes[rid]] == s.nodes;
    } else {
      var n := |events| - 1;
      var before := Consume(s.nodes[rid].mem, events[..n], faults[..n]);
      ProcessedInit(s.nodes[rid].mem, events, faults, r', stop);
      ReadingIsARun(cfg, s, rid, events[..n], faults[..n], before, None);
      ReadingStep(cfg, s, rid, before, events, faults, r', stop);
    }
  }

  lemma ReadingStep(cfg: CoreConfig, s: System, rid: nat, before: Replica, events: seq<Event>, faults: seq<Faults>,
                    r': Replica, stop: Option<Outcome>)
    requires Waiting(s, rid, events) && events != [] && |faults| == |events|
    requires
      var n := |events| - 1;
      var (after, outcome) := ProcessEvent(before, events[n], faults[n].lookup, faults[n].commit);
      && r' == after && stop == (if Continues(outcome) then None else Some(outcome))
      && Run(cfg, s, Deliveries(rid, faults[..n])) == Settled(s, rid, before, n, None)
    ensures Run(cfg, s, Deliveries(rid, faults)) == Settled(s, rid, r', |events|, stop)
  {
    RunDeliveries(cfg, s, rid, faults);
    LastDelivery(s, rid, before, events, faults[|events| - 1]);
  }

  lemma LastDelivery(s: System, rid: nat, before: Replica, events: seq<Event>, fault: Faults)
    requires Waiting(s, rid, events) && events != []
    ensures
      var n := |events| - 1;
      var (after, outcome) := ProcessEvent(before, events[n], fault.lookup, fault.commit);
      DoNode(Settled(s, rid, before, n, None), rid, DeliverFrame(fault)) ==
        Settled(s, rid, after, n + 1, if Continues(outcome) then None else Some(outcome))
  {
    var n, phase := |events| - 1, s.nodes[rid].phase;
    var middle := Settled(s, rid, before, n, None);
    assert s.sessions[phase.sid].cur.written[phase.read..][n] == events[n];
    assert NextFrame(middle, middle.nodes[rid]) == Some(events[n]);
    assert middle.nodes[rid := Deliver(middle.nodes[rid], events[n], fault)] ==
           s.nodes[rid := Deliver(middle.nodes[rid], events[n], fault)];
  }

  function RefreshSteps(rid: nat, write: WriteOutcome): seq<Step> {
    [NodeDoes(rid, ServeSnapshot)] + [NodeDoes(rid, InstallSnapshot(write))]
  }

  function BootstrapSteps(rid: nat, write: WriteOutcome): seq<Step> {
    [NodeDoes(rid, RequestSnapshot)] + RefreshSteps(rid, write)
  }

  /** A replica that has been brought the core's snapshot, after its attempt to install it. */
  function Refreshed(s: System, rid: nat, write: WriteOutcome): System
    requires rid in s.nodes
  {
    s.(nodes := s.nodes[rid := Install(s.nodes[rid].(phase := GotSnapshot(TakeSnapshot(s.core))), write)])
  }

  /** A refresh is a run: while no tick is under way, fetching and installing a snapshot does to the replica what
      recovering from the core's own snapshot does, and leaves everything else alone. */
  lemma RefreshIsARun(cfg: CoreConfig, s: System, rid: nat, write: WriteOutcome)
    requires s.pc == Idle && rid in s.nodes && s.nodes[rid].phase == AwaitSnapshot
    ensures
      var s' := Run(cfg, s, RefreshSteps(rid, write));
      && s' == Refreshed(s, rid, write)
      && s'.nodes[rid].phase == Ready
      && s'.nodes[rid].mem == Recover(s.nodes[rid].mem, Some(TakeSnapshot(s.core)), write).0
  {
    var serve, install := NodeDoes(rid, ServeSnapshot), NodeDoes(rid, InstallSnapshot(write));
    var got := s.nodes[rid].(phase := GotSnapshot(TakeSnapshot(s.core)));
    RunConcat(cfg, s, [serve], [install]);
    RunOne(cfg, s, serve);
    RunOne(cfg, Do(cfg, s, serve), install);
    assert s.nodes[rid := got][rid := Install(got, write)] == s.nodes[rid := Install(got, write)];
  }

  /** So is a bootstrap. */
  lemma BootstrapIsARun(cfg: CoreConfig, s: System, rid: nat, write: WriteOutcome)
    requires s.pc == Idle && rid in s.nodes && s.nodes[rid].phase == Ready && !s.nodes[rid].mem.bootstrapped
    ensures
      var s' := Run(cfg, s, BootstrapSteps(rid, write));
      && s' == Refreshed(s, rid, write)
      && s'.nodes[rid].phase == Ready
      && s'.nodes[rid].mem == Recover(s.nodes[rid].mem, Some(TakeSnapshot(s.core)), write).0
  {
    var request := NodeDoes(rid, RequestSnapshot);
    RunConcat(cfg, s, [request], RefreshSteps(rid, write));
    RunOne(cfg, s, request);
    RefreshIsARun(cfg, Do(cfg, s, request), rid, write);
    RefreshedAgain(s, rid, AwaitSnapshot, write);
  }

  /** A gap repairs itself, under every fault before it: the frame that shows it, a snapshot taken then and its number
      stored leave the replica ahead of where it was, level with its checkpoint and holding the core's own markets. */
  lemma GapIsRepaired(cfg: CoreConfig, rows: seq<Event>, s: System, rid: nat, faults: Faults)
    requires Reachable(cfg, rows, s, Anything) && s.pc == Idle && rid in s.nodes && NextFrame(s, s.nodes[rid]).Some?
    requires ProcessEvent(s.nodes[rid].mem, NextFrame(s, s.nodes[rid]).value, faults.lookup, faults.commit).1 == Gap
    ensures
      var s' := Run(cfg, s, [NodeDoes(rid, DeliverFrame(faults))] + RefreshSteps(rid, Done));
      && s' == Refreshed(s, rid, Done)
      && var r, node' := s.nodes[rid].mem, s'.nodes[rid];
         && node'.phase == Ready && node'.mem.bootstrapped
         && r.lastApplied < node'.mem.lastApplied == node'.mem.checkpoint == s.core.lastSeq
         && node'.mem.markets == s.core.markets && node'.mem.applied == r.applied
  {
    ReachableIsSafe(cfg, rows, s, Anything);
    NextFrameDeliverable(s, rid);
    GapFrame(s, rid, faults);
    GapRun(cfg, s, rid, faults);
    AcceptedRefresh(s, rid);
  }

  lemma GapRun(cfg: CoreConfig, s: System, rid: nat, faults: Faults)
    requires s.pc == Idle && rid in s.nodes
    requires DoNode(s, rid, DeliverFrame(faults)) == s.(nodes := s.nodes[rid := s.nodes[rid].(phase := AwaitSnapshot)])
    ensures Run(cfg, s, [NodeDoes(rid, DeliverFrame(faults))] + RefreshSteps(rid, Done)) == Refreshed(s, rid, Done)
  {
    var deliver := NodeDoes(rid, DeliverFrame(faults));
    RunConcat(cfg, s, [deliver], RefreshSteps(rid, Done));
    RunOne(cfg, s, deliver);
    RefreshIsARun(cfg, DoNode(s, rid, DeliverFrame(faults)), rid, Done);
    RefreshedAgain(s, rid, AwaitSnapshot, Done);
  }

  /** The phase a replica waited in leaves no trace. */
  lemma RefreshedAgain(s: System, rid: nat, phase: NodePhase, write: WriteOutcome)
    requires rid in s.nodes
    ensures Refreshed(s.(nodes := s.nodes[rid := s.nodes[rid].(phase := phase)]), rid, write) ==
            Refreshed(s, rid, write)
  {
    var node' := Refreshed(s, rid, write).nodes[rid];
    assert s.nodes[rid := s.nodes[rid].(phase := phase)][rid := node'] == s.nodes[rid := node'];
  }

  lemma AcceptedRefresh(s: System, rid: nat)
    requires rid in s.nodes && SnapshotSafe(TakeSnapshot(s.core)) && s.nodes[rid].mem.lastApplied <= s.core.lastSeq
    ensures
      var r, node' := s.nodes[rid].mem, Refreshed(s, rid, Done).nodes[rid];
      && node'.phase == Ready && node'.mem.bootstrapped
      && node'.mem.lastApplied == node'.mem.checkpoint == s.core.lastSeq
      && node'.mem.markets == s.core.markets && node'.mem.applied == r.applied
  {
    SnapshotPasses(TakeSnapshot(s.core), s.nodes[rid].mem);
  }

  /** A frame that is a gap leaves memory alone, behind the core. */
  lemma GapFrame(s: System, rid: nat, faults: Faults)
    requires LogInv(s.core) && MarketsInv(s.core) && rid in s.nodes && NextFrame(s, s.nodes[rid]).Some?
    requires Deliverable(s.core.rows, s.nodes[rid].mem, NextFrame(s, s.nodes[rid]).value)
    requires ProcessEvent(s.nodes[rid].mem, NextFrame(s, s.nodes[rid]).value, faults.lookup, faults.commit).1 == Gap
    ensures DoNode(s, rid, DeliverFrame(faults)) == s.(nodes := s.nodes[rid := s.nodes[rid].(phase := AwaitSnapshot)])
    ensures s.nodes[rid].mem.lastApplied < s.core.lastSeq && SnapshotSafe(TakeSnapshot(s.core))
  {
    DeliveredOutcome(s.core.rows, s.nodes[rid].mem, NextFrame(s, s.nodes[rid]).value, faults);
  }
}
