/** What the steps of the protocol that no other theorem ties to an operation stand for. */
module StepMeanings {
  import opened SignalWindow
  import opened CoreState
  import opened Hub
  import opened Stream
  import opened Protocol

  /** A signal or a clear that finds the mutex free is the core's operation; while a tick is under way it has to wait.
      Nobody else notices. */
  lemma SignalsAreOperations(cfg: CoreConfig, s: System, marketId: string, point: SignalPoint, now: int)
    ensures
      var s1 := Do(cfg, s, CoreDoes(IngestSignal(marketId, point, now)));
      var s2 := Do(cfg, s, CoreDoes(ClearSignals(marketId, now)));
      && s1.core == (if s.pc == Idle then Ingest(cfg, s.core, marketId, point, now) else s.core)
      && s2.core == (if s.pc == Idle then Clear(cfg, s.core, marketId, now) else s.core)
      && s1 == s.(core := s1.core, trace := s1.trace)
      && s2 == s.(core := s2.core, trace := s2.trace)
  {
  }

  /** A core can go down anywhere. Its log stays, its memory is that of a new core over that log, its sessions have
      ended with what they have written, and the replicas keep what they had. */
  lemma CoreGoesDown(cfg: CoreConfig, s: System, now: int)
    ensures
      var s' := Do(cfg, s, CoreDoes(RestartCore(now)));
      && s'.core == NewCore(cfg, s.core.rows, now) && s'.pc == Idle
      && s'.nodes == s.nodes && s'.sent == s.sent
      && s'.sessions.Keys == s.sessions.Keys
      && (forall sid <- s.sessions.Keys ::
          && s'.sessions[sid].phase == Ended && s'.sessions[sid].chan.closed
          && s'.sessions[sid].cur == s.sessions[sid].cur)
  {
  }

  /** A replica can go down anywhere: its tables stay, its memory is gone, and so is whatever it was waiting for. A
      connection can break under it, and a snapshot can be lost or time out, at any moment before it is installed;
      then only the waiting ends. */
  lemma ReplicaGoesDown(cfg: CoreConfig, s: System, rid: nat)
    requires rid in s.nodes
    ensures
      var node := s.nodes[rid];
      var restarted := Do(cfg, s, NodeDoes(rid, NodeAction.Restart)).nodes[rid];
      var cut := Do(cfg, s, NodeDoes(rid, Disconnect)).nodes[rid];
      var lost := Do(cfg, s, NodeDoes(rid, DropSnapshot)).nodes[rid];
      && restarted.phase == Ready && !restarted.mem.bootstrapped
      && restarted.mem.applied == node.mem.applied && restarted.mem.checkpoint == node.mem.checkpoint
      && restarted.mem.lastApplied == node.mem.checkpoint
      && restarted.mem.markets == map[] && restarted.mem.history == map[]
      && cut == node.(phase := if node.phase.Reading? then Ready else node.phase)
      && lost == node.(phase := if node.phase == AwaitSnapshot || node.phase.GotSnapshot? then Ready else node.phase)
  {
  }

  /** Anyone can open a session at any number from 1 on: it starts subscribed, with an empty channel of 1024 places, and
      has written nothing. */
  lemma SessionsOpen(cfg: CoreConfig, s: System, sid: nat, fromSeq: int)
    requires sid !in s.sessions && fromSeq >= 1
    ensures
      var s' := Do(cfg, s, OpenSession(sid, fromSeq));
      && s'.core == s.core && s'.nodes == s.nodes && s'.sessions.Keys == s.sessions.Keys + {sid}
      && (forall k <- s.sessions.Keys :: s'.sessions[k] == s.sessions[k])
      && s'.sessions[sid].fromSeq == fromSeq && s'.sessions[sid].phase == Subscribed
      && s'.sessions[sid].cur == Cursor(fromSeq, [])
      && s'.sessions[sid].chan == Chan(1024, [], false)
  {
  }
}
