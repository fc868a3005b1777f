/** The stream handler against the sessions of the protocol, both ways: what the handler does on a wake-up is a run of
    session steps, and every session of every run has done what the handler does on the wake-ups that session had. */
module StreamRuns {
  import opened Domain
  import opened EventLog
  import opened CoreState
  import opened CoreHistory
  import opened Stream
  import opened Protocol
  import opened ProtocolSafety
  import opened ReplicaSafety
  import opened ProtocolTheorems
  import opened TickRuns

  // ---------- The handler as a run ----------

  /** A streaming session between two wake-ups, and the next one it can have with this log. */
  predicate Wakes(sess: Session, rows: seq<Event>, wake: Wake) {
    && sess.phase == Streaming && sess.pending == None
    && (wake.Live? ==> wake.rows == rows && sess.chan.buffer != [] && sess.chan.buffer[0] == wake.evt)
  }

  function WakeSteps(sid: nat, cur: Cursor, wake: Wake): seq<Step> {
    match wake
    case Keepalive => []
    case Live(_, _, _) =>
      [SessionDoes(sid, TakeLive)] + [SessionDoes(sid, if EndsSession(cur, wake) then EndSession else MergePending)]
    case ChannelClosed => [SessionDoes(sid, EndSession)]
    case Cancelled => [SessionDoes(sid, EndSession)]
  }

  /** The session after a wake-up: its cursor is the handler's, a live event has left the channel, and it has ended if
      and only if the handler returns. */
  ghost predicate Woken(sess: Session, wake: Wake, sess': Session) {
    && sess'.fromSeq == sess.fromSeq
    && sess'.cur == (if EndsSession(sess.cur, wake) then sess.cur else AfterWake(sess.cur, wake))
    && sess.chan.buffer == (if wake.Live? then [wake.evt] else []) + sess'.chan.buffer
    && sess'.past == (if wake.Live? && !EndsSession(sess.cur, wake) then
                        sess.past.(wakes := sess.past.wakes + [wake.(readable := true)])
                      else sess.past)
    && (sess'.phase == Ended <==> EndsSession(sess.cur, wake))
    && (sess'.phase != Ended ==> sess'.phase == Streaming && sess'.pending == None)
  }

  lemma SetSession(s: System, sid: nat, a: Session, b: Session)
    ensures s.(sessions := s.sessions[sid := a]).(sessions := s.sessions[sid := a][sid := b]) ==
            s.(sessions := s.sessions[sid := b])
  {
    assert s.sessions[sid := a][sid := b] == s.sessions[sid := b];
  }

  /** What the handler does on one wake-up is a run of its session's steps. */
  lemma WakeIsARun(cfg: CoreConfig, s: System, sid: nat, wake: Wake)
    requires sid in s.sessions && Wakes(s.sessions[sid], s.core.rows, wake)
    ensures
      var s' := Run(cfg, s, WakeSteps(sid, s.sessions[sid].cur, wake));
      && sid in s'.sessions && s' == s.(sessions := s.sessions[sid := s'.sessions[sid]])
      && Woken(s.sessions[sid], wake, s'.sessions[sid])
  {
    var sess, rows := s.sessions[sid], s.core.rows;
    match wake
    case Keepalive =>
      assert s.sessions[sid := sess] == s.sessions;
    case Live(_, _, _) =>
      var take := SessionDoes(sid, TakeLive);
      var move := if EndsSession(sess.cur, wake) then EndSession else MergePending;
      RunConcat(cfg, s, [take], [SessionDoes(sid, move)]);
      RunOne(cfg, s, take);
      RunOne(cfg, Do(cfg, s, take), SessionDoes(sid, move));
      SetSession(s, sid, TakenSession(sess), SessionStep(TakenSession(sess), rows, move));
    case ChannelClosed =>
      RunOne(cfg, s, SessionDoes(sid, EndSession));
    case Cancelled =>
      RunOne(cfg, s, SessionDoes(sid, EndSession));
  }

  /** So is its backlog read. */
  lemma BacklogIsARun(cfg: CoreConfig, s: System, sid: nat)
    requires sid in s.sessions && s.sessions[sid].phase == Subscribed && s.sessions[sid].pending == None
    ensures
      var s' := Run(cfg, s, [SessionDoes(sid, LoadBacklog)]);
      && sid in s'.sessions && s' == s.(sessions := s.sessions[sid := s'.sessions[sid]])
      && s'.sessions[sid].phase == Streaming && s'.sessions[sid].pending == None
      && s'.sessions[sid].cur == AfterBacklog(s.sessions[sid].fromSeq, s.core.rows)
      && s'.sessions[sid].chan == s.sessions[sid].chan
      && s'.sessions[sid].past == s.sessions[sid].past.(start := s.core.rows)
  {
    RunOne(cfg, s, SessionDoes(sid, LoadBacklog));
  }

  // ---------- Every session as a handler ----------

  /** Live wake-ups whose gap-fill reads work. */
  predicate AllLive(wakes: seq<Wake>) {
    forall i :: 0 <= i < |wakes| ==> wakes[i].Live? && wakes[i].readable
  }

  lemma {:induction false} AfterMoreWakes(cur: Cursor, wakes: seq<Wake>, evt: Event, now: seq<Event>)
    requires AllLive(wakes)
    ensures AfterWakes(cur, wakes + [Live(evt, now, true)]) == OnLive(AfterWakes(cur, wakes), evt, now)
    decreases |wakes|
  {
    var more := wakes + [Live(evt, now, true)];
    if wakes == [] {
      assert more[1..] == [];
    } else {
      assert more[0] == wakes[0] && more[1..] == wakes[1..] + [Live(evt, now, true)];
      AfterMoreWakes(AfterWake(cur, wakes[0]), wakes[1..], evt, now);
    }
  }

  lemma {:induction false} MorePlausible(rows: seq<Event>, wakes: seq<Wake>, evt: Event, now: seq<Event>)
    requires AllLive(wakes) && Plausible(rows, wakes) && LastRead(rows, wakes) <= now
    requires GapFree(now) && 1 <= evt.seqNo <= |now| && now[evt.seqNo - 1] == evt
    ensures Plausible(rows, wakes + [Live(evt, now, true)])
    ensures LastRead(rows, wakes + [Live(evt, now, true)]) == now
    decreases |wakes|
  {
    var more := wakes + [Live(evt, now, true)];
    if wakes == [] {
      assert more[1..] == [];
    } else {
      assert more[0] == wakes[0] && more[1..] == wakes[1..] + [Live(evt, now, true)];
      MorePlausible(wakes[0].rows, wakes[1..], evt, now);
    }
  }

  /** The live events of these wake-ups. */
  function LiveEvents(wakes: seq<Wake>): seq<Event>
    requires AllLive(wakes)
  {
    seq(|wakes|, i requires 0 <= i < |wakes| => wakes[i].evt)
  }

  /** The session has done what the handler does on the wake-ups it had over the log it found, and those were
      plausible. */
  ghost predicate Handled(rows: seq<Event>, sess: Session) {
    var past := sess.past;
    && GapFree(past.start) && AllLive(past.wakes)
    && Plausible(past.start, past.wakes) && LastRead(past.start, past.wakes) <= rows
    && sess.cur == AfterWakes(AfterBacklog(sess.fromSeq, past.start), past.wakes)
  }

  /** The wake-ups and what is still queued are what the channel took, in order; and that is every broadcast since the
      subscription, up to the one that evicted it or the end of the session. */
  ghost predicate Fed(sent: seq<Event>, sess: Session) {
    var past := sess.past;
    && AllLive(past.wakes)
    && LiveEvents(past.wakes) + Queue(sess) == past.offered
    && past.joined <= |sent|
    && past.offered <= sent[past.joined..]
    && (!sess.chan.closed ==> past.offered == sent[past.joined..])
  }

  ghost predicate Refines(rows: seq<Event>, sent: seq<Event>, sess: Session) {
    && Handled(rows, sess)
    && Fed(sent, sess)
    && (sess.phase == Subscribed ==> sess.past.start == [] && sess.past.wakes == [])
  }

  // ---------- What a session's steps keep ----------

  lemma NewRefines(rows: seq<Event>, sent: seq<Event>, fromSeq: int)
    ensures Refines(rows, sent, NewSession(fromSeq, |sent|))
  {
    assert sent[|sent|..] == [];
  }

  lemma LiveHandled(rows: seq<Event>, sess: Session, evt: Event)
    requires Handled(rows, sess)
    requires GapFree(rows) && 1 <= evt.seqNo <= |rows| && rows[evt.seqNo - 1] == evt
    ensures Handled(rows, sess.(cur := OnLive(sess.cur, evt, rows),
                                past := sess.past.(wakes := sess.past.wakes + [Live(evt, rows, true)])))
  {
    AfterMoreWakes(AfterBacklog(sess.fromSeq, sess.past.start), sess.past.wakes, evt, rows);
    MorePlausible(sess.past.start, sess.past.wakes, evt, rows);
  }

  /** Merging moves the event from the queue to the wake-ups. */
  lemma MergeFed(sent: seq<Event>, sess: Session, rows: seq<Event>)
    requires Fed(sent, sess) && sess.phase == Streaming && sess.pending.Some?
    ensures Fed(sent, MergedSession(sess, rows))
  {
    var sess' := MergedSession(sess, rows);
    var evt := sess.pending.value;
    assert LiveEvents(sess'.past.wakes) == LiveEvents(sess.past.wakes) + [evt];
    assert Queue(sess) == [evt] + Queue(sess');
  }

  /** Taking it out of the channel keeps the queue. */
  lemma TakeFed(sent: seq<Event>, sess: Session)
    requires Fed(sent, sess)
    ensures Fed(sent, TakenSession(sess))
  {
    assert Queue(TakenSession(sess)) == Queue(sess);
  }

  lemma SessionStepRefines(rows: seq<Event>, announced: int, sent: seq<Event>, sess: Session, move: SessionAction)
    requires GapFree(rows) && SessionSafe(rows, announced, sess) && Refines(rows, sent, sess)
    ensures Refines(rows, sent, SessionStep(sess, rows, move))
  {
    match move
    case LoadBacklog =>
    case TakeLive => TakeFed(sent, sess);
    case MergePending =>
      if sess.phase == Streaming && sess.pending.Some? {
        assert Queue(sess)[0] == sess.pending.value && Logged(rows, announced, Queue(sess)[0]);
        LiveHandled(rows, sess, sess.pending.value);
        MergeFed(sent, sess, rows);
      }
    case EndSession => EndRefines(rows, sent, sess);
  }

  lemma EndRefines(rows: seq<Event>, sent: seq<Event>, sess: Session)
    requires Refines(rows, sent, sess)
    ensures Refines(rows, sent, EndedSession(sess))
  {
    assert Queue(EndedSession(sess)) == Queue(sess);
  }

  /** A broadcast feeds an open channel that has room, and evicts one that has none. */
  lemma OfferRefines(rows: seq<Event>, sent: seq<Event>, sess: Session, evt: Event)
    requires Refines(rows, sent, sess)
    ensures Refines(rows, sent + [evt], OfferTo(sess, evt))
  {
    var sess', past := OfferTo(sess, evt), sess.past;
    assert (sent + [evt])[past.joined..] == sent[past.joined..] + [evt];
    assert LiveEvents(past.wakes) + (Queue(sess) + [evt]) == past.offered + [evt];
    assert Queue(sess') == Queue(sess) || Queue(sess') == Queue(sess) + [evt];
  }

  // ---------- What every step keeps ----------

  ghost predicate AllRefine(s: System) {
    forall sid :: sid in s.sessions ==> Refines(s.core.rows, s.sent, s.sessions[sid])
  }

  lemma RowsRefine(s: System, s': System)
    requires AllRefine(s) && s.core.rows <= s'.core.rows && s'.sent == s.sent && s'.sessions == s.sessions
    ensures AllRefine(s')
  {
    forall sid | sid in s'.sessions ensures Refines(s'.core.rows, s'.sent, s'.sessions[sid]) {
      assert Refines(s.core.rows, s.sent, s.sessions[sid]);
    }
  }

  lemma BroadcastRefines(s: System)
    requires AllRefine(s)
    ensures AllRefine(DoBroadcast(s))
  {
    if s.pc.Persisted? {
      forall sid | sid in s.sessions
        ensures Refines(s.core.rows, s.sent + [s.pc.evt], OfferTo(s.sessions[sid], s.pc.evt))
      {
        OfferRefines(s.core.rows, s.sent, s.sessions[sid], s.pc.evt);
      }
    }
  }

  lemma RestartRefines(cfg: CoreConfig, s: System, now: int)
    requires AllRefine(s)
    ensures AllRefine(DoRestartCore(cfg, s, now))
  {
    forall sid | sid in s.sessions ensures Refines(s.core.rows, s.sent, EndedSession(s.sessions[sid])) {
      EndRefines(s.core.rows, s.sent, s.sessions[sid]);
    }
  }

  lemma EvaluateRefines(cfg: CoreConfig, s: System, choice: Choice)
    requires CoreSafe(s) && AllRefine(s)
    ensures AllRefine(DoEvaluate(cfg, s, choice))
  {
    EvaluateCore(cfg, s, choice);
    RowsRefine(s, DoEvaluate(cfg, s, choice));
  }

  lemma CoreRefines(cfg: CoreConfig, s: System, act: CoreAction)
    requires cfg.defaultMarket != "" && CoreSafe(s) && AllRefine(s)
    ensures AllRefine(DoCore(cfg, s, act))
  {
    match act
    case IngestSignal(marketId, point, now) =>
      IngestStep(cfg, s.core, marketId, point, now);
      RowsRefine(s, DoIngest(cfg, s, marketId, point, now));
    case ClearSignals(marketId, now) =>
      ClearStep(cfg, s.core, marketId, now);
      RowsRefine(s, DoClear(cfg, s, marketId, now));
    case EvaluateNext(choice) => EvaluateRefines(cfg, s, choice);
    case BroadcastEvent => BroadcastRefines(s);
    case RestartCore(now) => RestartRefines(cfg, s, now);
    case AssignMarket => RowsRefine(s, DoAssign(s));
    case BeginTick(now) => RowsRefine(s, DoBeginTick(s, now));
    case EndTick => RowsRefine(s, DoEndTick(s));
  }

  lemma SessionRefines(s: System, sid: nat, move: SessionAction)
    requires Safe(s) && AllRefine(s)
    ensures AllRefine(DoSession(s, sid, move))
  {
    if sid in s.sessions {
      SessionStepRefines(s.core.rows, s.announced, s.sent, s.sessions[sid], move);
    }
  }

  lemma OpenRefines(s: System, s': System, sid: nat, fromSeq: int)
    requires AllRefine(s) && s'.core == s.core && s'.sent == s.sent
    requires s'.sessions == s.sessions || s'.sessions == s.sessions[sid := NewSession(fromSeq, |s.sent|)]
    ensures AllRefine(s')
  {
    NewRefines(s.core.rows, s.sent, fromSeq);
  }

  lemma OpenSessionRefines(s: System, sid: nat, fromSeq: int)
    requires AllRefine(s)
    ensures AllRefine(DoOpenSession(s, sid, fromSeq))
  {
    OpenRefines(s, DoOpenSession(s, sid, fromSeq), sid, fromSeq);
  }

  lemma OpenStreamRefines(s: System, rid: nat, sid: nat)
    requires AllRefine(s)
    ensures AllRefine(DoOpenStream(s, rid, sid))
  {
    var fromSeq := if rid in s.nodes then s.nodes[rid].mem.lastApplied + 1 else 0;
    OpenRefines(s, DoOpenStream(s, rid, sid), sid, fromSeq);
  }

  lemma NodesRefine(s: System, s': System)
    requires AllRefine(s) && s'.core == s.core && s'.sent == s.sent && s'.sessions == s.sessions
    ensures AllRefine(s')
  {
    RowsRefine(s, s');
  }

  lemma StepRefines(cfg: CoreConfig, s: System, step: Step)
    requires cfg.defaultMarket != "" && Safe(s) && AllRefine(s)
    ensures AllRefine(Do(cfg, s, step))
  {
    match step
    case CoreDoes(act) => CoreRefines(cfg, s, act);
    case SessionDoes(sid, move) => SessionRefines(s, sid, move);
    case OpenSession(sid, fromSeq) => OpenSessionRefines(s, sid, fromSeq);
    case OpenStream(rid, sid) => OpenStreamRefines(s, rid, sid);
    case AddNode(rid) => NodesRefine(s, DoAddNode(s, rid));
    case NodeDoes(rid, deed) => NodesRefine(s, DoNode(s, rid, deed));
  }

  lemma {:induction false} RunsRefine(cfg: CoreConfig, rows: seq<Event>, now: int, steps: seq<Step>)
    requires cfg.defaultMarket != "" && StartLog(rows)
    ensures AllRefine(Run(cfg, Init(cfg, rows, now), steps))
  {
    if steps == [] {
    } else {
      var init := steps[..|steps| - 1];
      RunsRefine(cfg, rows, now, init);
      RunsAreSafe(cfg, rows, now, init);
      StepRefines(cfg, Run(cfg, Init(cfg, rows, now), init), steps[|steps| - 1]);
    }
  }

  /** Every session of every run refines the handler. With the log its own backlog read found, and its own wake-ups,
      each with the log it could read, the handler writes the session's frames and owes the same next number; each live
      event was in the log when it was merged, and the log only grew between reads. The events of those wake-ups and
      the ones still waiting are every broadcast since the session subscribed, none missing or out of order, as long
      as it is open, and up to its eviction or end otherwise. */
  lemma SessionsRunTheHandler(cfg: CoreConfig, rows: seq<Event>, s: System, sid: nat)
    requires Reachable(cfg, rows, s, Anything) && sid in s.sessions
    ensures
      var sess := s.sessions[sid];
      var past := sess.past;
      && Plausible(past.start, past.wakes) && LastRead(past.start, past.wakes) <= s.core.rows
      && sess.cur == AfterWakes(AfterBacklog(sess.fromSeq, past.start), past.wakes)
      && sess.cur.written == SessionFrames(sess.fromSeq, past.start, past.wakes)
      && AllLive(past.wakes)
      && LiveEvents(past.wakes) + Queue(sess) == past.offered
      && past.joined <= |s.sent|
      && past.offered <= s.sent[past.joined..]
      && (!sess.chan.closed ==> past.offered == s.sent[past.joined..])
  {
    var now, steps :| Uses(steps, Anything) && s == Run(cfg, Init(cfg, rows, now), steps);
    RunsRefine(cfg, rows, now, steps);
    assert Refines(s.core.rows, s.sent, s.sessions[sid]);
  }
}
