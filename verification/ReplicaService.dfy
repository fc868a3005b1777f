/** The replica's store and service objects, proved against the functions of ReplicaState. */
module ReplicaService {
  import opened Domain
  import opened ReplicaState
  import Backoff

  /** The tables applied_events and consumer_checkpoint. */
  class Store {
    var applied: map<string, int>
    var checkpoint: int

    constructor ()
      ensures applied == map[] && checkpoint == 0
    {
      applied, checkpoint := map[], 0;
    }

    method GetCheckpoint(readable: bool) returns (result: Option<int>)
      ensures result == if readable then Some(checkpoint) else None
    {
      result := if readable then Some(checkpoint) else None;
    }

    method IsEventApplied(eventId: string, readable: bool) returns (result: Option<bool>)
      ensures result == if readable then Some(eventId in applied) else None
    {
      result := if readable then Some(eventId in applied) else None;
    }

    method SetCheckpoint(seqNo: int, outcome: WriteOutcome) returns (ok: bool)
      modifies this`checkpoint
      ensures checkpoint == if outcome == Lost then old(checkpoint) else seqNo
      ensures ok <==> outcome == Done
    {
      if outcome != Lost {
        checkpoint := seqNo;
      }
      ok := outcome == Done;
    }

    /** Dedupe row and checkpoint move together or not at all, whatever is reported. */
    method CommitAppliedEvent(eventId: string, seqNo: int, outcome: WriteOutcome) returns (result: Option<bool>)
      modifies this
      ensures (applied, checkpoint, result) == CommitApplied(old(applied), old(checkpoint), eventId, seqNo, outcome)
      ensures result == if outcome == Done then Some(eventId !in old(applied)) else None
      ensures
        if outcome != Lost && eventId !in old(applied) then
          applied == old(applied)[eventId := seqNo] && checkpoint == seqNo
        else
          applied == old(applied) && checkpoint == old(checkpoint)
    {
      if outcome == Lost {
        return None;
      }
      var inserted := eventId !in applied;
      if inserted {
        applied := applied[eventId := seqNo];
        checkpoint := seqNo;
      }
      result := if outcome == Done then Some(inserted) else None;
    }
  }

  /** Accepts exactly the acceptable snapshots, and then returns all of their markets. */
  method ValidateSnapshot(snapshot: Snapshot, minSeq: int) returns (validated: Option<map<string, MarketState>>)
    ensures validated.Some? <==> SnapshotFits(snapshot, minSeq)
    ensures validated.Some? ==> validated.value == snapshot.markets
  {
    if snapshot.lastSeq < 0 || snapshot.lastSeq < minSeq {
      return None;
    }
    var pending := snapshot.markets.Keys;
    var copied: map<string, MarketState> := map[];
    while pending != {}
      invariant pending <= snapshot.markets.Keys
      invariant copied == map m | m in snapshot.markets && m !in pending :: snapshot.markets[m]
      invariant forall m :: m in copied ==> m != "" && copied[m].marketId == m && KnownStatus(copied[m].status)
      decreases pending
    {
      var m :| m in pending;
      var market := snapshot.markets[m];
      if m == "" || market.marketId != m || ValidateMarketState(market).Some? {
        return None;
      }
      copied := copied[m := market];
      pending := pending - {m};
    }
    assert copied == snapshot.markets;
    validated := Some(copied);
  }

  /** A data line of the stream: an event, with what the database has in store for it, or text that is not one. */
  datatype Frame = Frame(evt: Event, faults: Faults) | Garbled

  datatype StreamEnd = EndOfStream | DecodeFailed | Stopped(outcome: Outcome)

  /** What a stream request meets: a refusal, or a series of frames; cancelled if the service is told to stop. */
  datatype Response = Refused | Opened(frames: seq<Frame>)

  /** How one round of the main loop ends. */
  datatype Next = Retry | RetryAfter(delay: Backoff.Duration) | Stop

  class Service {
    const cfg: Backoff.Config
    const store: Store
    var markets: map<string, MarketState>
    var history: map<string, seq<Event>>
    var lastAppliedSeq: int
    var coreLastSeq: int
    var bootstrapped: bool
    var reconnectAttempts: nat

    ghost function State(): Replica
      reads this, store
    {
      Replica(store.applied, store.checkpoint, markets, history, lastAppliedSeq, coreLastSeq, bootstrapped)
    }

    /** Memory starts empty; only the checkpoint survives. */
    constructor (store: Store, cfg: Backoff.Config, checkpoint: int)
      requires checkpoint == store.checkpoint
      ensures this.store == store && this.cfg == Backoff.Normalize(cfg) && reconnectAttempts == 0
      ensures State() == NewReplica(store.applied, store.checkpoint)
      ensures markets == map[] && history == map[] && !bootstrapped
      ensures lastAppliedSeq == store.checkpoint && coreLastSeq == 0
    {
      this.store := store;
      this.cfg := Backoff.Normalize(cfg);
      reconnectAttempts := 0;
      markets, history := map[], map[];
      lastAppliedSeq, coreLastSeq, bootstrapped := checkpoint, 0, false;
    }

    method UpdateCoreLastSeq(seqNo: int)
      modifies this`coreLastSeq
      ensures State() == SawSeq(old(State()), seqNo)
    {
      if seqNo > coreLastSeq {
        coreLastSeq := seqNo;
      }
    }

    method ProcessEvent(evt: Event, faults: Faults) returns (outcome: Outcome)
      modifies this, store
      ensures reconnectAttempts == old(reconnectAttempts)
      ensures (State(), outcome) == ReplicaState.ProcessEvent(old(State()), evt, faults.lookup, faults.commit)
    {
      var error := ValidateEnvelope(evt);
      if error.Some? {
        return Invalid(error.value);
      }
      var known := store.IsEventApplied(evt.id, faults.lookup);
      if known.None? {
        return StoreFailed;
      }
      if known.value {
        UpdateCoreLastSeq(evt.seqNo);
        return Duplicate;
      }
      if evt.seqNo != lastAppliedSeq + 1 {
        return Gap;
      }
      var decoding := DecodePayload(evt);
      if decoding.Rejected? {
        return Invalid(decoding.error);
      }
      var market := decoding.market;
      var committed := store.CommitAppliedEvent(evt.id, evt.seqNo, faults.commit);
      if committed.None? {
        return StoreFailed;
      }
      if !committed.value {
        assert false;  // the lookup found no row, and nobody else writes this table
      }
      markets := markets[market.marketId := market];
      var previous := if market.marketId in history then history[market.marketId] else [];
      history := history[market.marketId := previous + [evt]];
      lastAppliedSeq := evt.seqNo;
      UpdateCoreLastSeq(evt.seqNo);
      outcome := Applied;
    }

    method RefreshFromSnapshot(snapshot: Snapshot, write: WriteOutcome) returns (ok: bool)
      modifies this, store
      ensures (State(), ok) == Refresh(old(State()), snapshot, write)
      ensures reconnectAttempts == if ok then 0 else old(reconnectAttempts)
    {
      var validated := ValidateSnapshot(snapshot, lastAppliedSeq);
      if validated.None? {
        return false;
      }
      ok := store.SetCheckpoint(snapshot.lastSeq, write);
      if !ok {
        return;
      }
      markets := validated.value;
      history := map[];
      lastAppliedSeq := snapshot.lastSeq;
      coreLastSeq := snapshot.lastSeq;
      bootstrapped := true;
      reconnectAttempts := 0;
    }

    /** The frame loop: every frame up to the one that stops it goes through ProcessEvent, in order, once. */
    method ConsumeFrames(frames: seq<Frame>)
      returns (end: StreamEnd, n: nat, ghost events: seq<Event>, ghost faults: seq<Faults>)
      modifies this, store
      ensures reconnectAttempts == old(reconnectAttempts)
      ensures n <= |frames| && n <= |events|
      ensures |faults| == |events|
      ensures forall i :: 0 <= i < |events| ==> i < |frames| && frames[i] == Frame(events[i], faults[i])
      ensures Processed(old(State()), events, faults, State(), if end.Stopped? then Some(end.outcome) else None)
      ensures match end {
                case EndOfStream => n == |frames| == |events|
                case DecodeFailed => n == |events| < |frames| && frames[n] == Garbled
                case Stopped(outcome) =>
                  && n == |events| - 1
                  && (outcome == Gap || outcome == StoreFailed || outcome.Invalid?)
              }
    {
      events, faults := [], [];
      n := 0;
      while n < |frames|
        invariant reconnectAttempts == old(reconnectAttempts)
        invariant n <= |frames| && |events| == |faults| == n
        invariant forall i :: 0 <= i < n ==> frames[i] == Frame(events[i], faults[i])
        invariant Processed(old(State()), events, faults, State(), None)
      {
        match frames[n] {
          case Garbled =>
            return DecodeFailed, n, events, faults;
          case Frame(evt, fault) =>
            ghost var before := State();
            var outcome := ProcessEvent(evt, fault);
            ProcessedMore(old(State()), events, faults, before, evt, fault);
            events, faults := events + [evt], faults + [fault];
            if !Continues(outcome) {
              return Stopped(outcome), n, events, faults;
            }
        }
        n := n + 1;
      }
      end := EndOfStream;
    }

    /** Each call counts one attempt and doubles the delay it starts from. */
    method NextReconnectDelay(random: real) returns (delay: Backoff.Duration)
      modifies this`reconnectAttempts
      ensures reconnectAttempts == old(reconnectAttempts) + 1
      ensures State() == old(State())
      ensures Backoff.FollowsDelayRule(cfg, old(reconnectAttempts), random, delay)
    {
      var attempt := reconnectAttempts;
      reconnectAttempts := reconnectAttempts + 1;
      var base := Backoff.ExponentialBackoff(cfg.initial, cfg.max, attempt);
      delay := Backoff.JitteredDelay(base, cfg.max, random);
      Backoff.IdealIsProduct(cfg.initial, cfg.max, attempt);
    }

    /** A refresh with whatever the fetch brought. */
    method FetchAndRefresh(fetched: Option<Snapshot>, write: WriteOutcome) returns (ok: bool)
      modifies this, store
      ensures (State(), ok) == Recover(old(State()), fetched, write)
      ensures reconnectAttempts == if ok then 0 else old(reconnectAttempts)
    {
      if fetched.None? {
        return false;
      }
      ok := RefreshFromSnapshot(fetched.value, write);
    }

    /** One bootstrap at most, before the first stream. */
    method EnsureBootstrapped(fetched: Option<Snapshot>, write: WriteOutcome) returns (ok: bool)
      modifies this, store
      ensures State() == if old(bootstrapped) then old(State()) else Recover(old(State()), fetched, write).0
      ensures ok <==> bootstrapped
      ensures reconnectAttempts == if ok && !old(bootstrapped) then 0 else old(reconnectAttempts)
    {
      if bootstrapped {
        return true;
      }
      ok := FetchAndRefresh(fetched, write);
    }

    /** One connection: requested from the number after the last applied, read until something stops it. */
    method ConsumeStream(response: Response)
      returns (fromSeq: int, end: Option<StreamEnd>, ghost events: seq<Event>, ghost faults: seq<Faults>)
      modifies this, store
      ensures fromSeq == old(lastAppliedSeq) + 1
      ensures end.None? <==> response.Refused?
      ensures reconnectAttempts == if response.Refused? then old(reconnectAttempts) else 0
      ensures Processed(old(State()), events, faults, State(), StopOf(end))
      ensures Received(response, events, faults, StopOf(end))
      ensures end == Some(EndOfStream) ==> |events| == |response.frames|
      ensures end == Some(DecodeFailed) ==> |events| < |response.frames| && response.frames[|events|] == Garbled
      ensures end.Some? && end.value.Stopped? ==>
                end.value.outcome == Gap || end.value.outcome == StoreFailed || end.value.outcome.Invalid?
    {
      fromSeq := lastAppliedSeq + 1;
      events, faults := [], [];
      if response.Refused? {
        return fromSeq, None, events, faults;
      }
      reconnectAttempts := 0;
      var ending, n;
      ending, n, events, faults := ConsumeFrames(response.frames);
      end := Some(ending);
    }

    /** One round of the main loop. Nothing is requested before a bootstrap; a gap, and nothing else, leads to a
        refresh; every failure but a repaired gap waits; only a cancellation ends the loop. */
    method Synchronize(env: Environment, random: real) returns (next: Next, requested: Option<int>, ghost round: Round)
      modifies this, store
      ensures Taken(old(State()), env, round, State())
      ensures requested == if round.ready.bootstrapped then Some(round.ready.lastApplied + 1) else None
      ensures next == Stop <==> round.ready.bootstrapped && env.cancelled
      ensures next == Retry <==>
                round.stop == Some(Gap) && !env.cancelled && Recover(round.read, env.refetched, env.second).1
      ensures next.RetryAfter? ==>
                var afresh := requested.Some? && (env.response.Opened? || !old(bootstrapped));
                var attempt := if afresh then 0 else old(reconnectAttempts);
                && Backoff.FollowsDelayRule(cfg, attempt, random, next.delay)
                && reconnectAttempts == attempt + 1
    {
      requested := None;
      var ok := EnsureBootstrapped(env.fetched, env.first);
      ghost var ready := State();
      if !ok {
        round := Round(ready, [], [], None, ready);
        var delay := NextReconnectDelay(random);
        return RetryAfter(delay), None, round;
      }
      var fromSeq, end;
      ghost var events, faults;
      fromSeq, end, events, faults := ConsumeStream(env.response);
      requested := Some(fromSeq);
      round := Round(ready, events, faults, StopOf(end), State());
      if env.cancelled {
        return Stop, requested, round;
      }
      if end == Some(Stopped(Gap)) {
        ok := FetchAndRefresh(env.refetched, env.second);
        if ok {
          return Retry, requested, round;
        }
      }
      var delay := NextReconnectDelay(random);
      next := RetryAfter(delay);
    }
  }

  /** Construction fails without a core to follow, and when the checkpoint cannot be read. */
  method NewService(store: Store, cfg: Backoff.Config, coreBaseUrl: string, readable: bool) returns (svc: Service?)
    ensures svc == null <==> coreBaseUrl == "" || !readable
    ensures svc != null ==>
              && fresh(svc) && svc.store == store && svc.cfg == Backoff.Normalize(cfg) && svc.reconnectAttempts == 0
              && svc.State() == NewReplica(store.applied, store.checkpoint)
  {
    if coreBaseUrl == "" {
      return null;
    }
    var checkpoint := store.GetCheckpoint(readable);
    if checkpoint.None? {
      return null;
    }
    svc := new Service(store, cfg, checkpoint.value);
  }

  /** What stopped the frame loop of a connection, if it was a frame. */
  function StopOf(end: Option<StreamEnd>): Option<Outcome> {
    if end.Some? && end.value.Stopped? then Some(end.value.outcome) else None
  }

  /** What the environment has in store for a round: the snapshot a bootstrap would fetch and what the database would
      do with its number, the answer to the stream request, the same for a refresh, and whether the service is told
      to stop meanwhile. */
  datatype Environment = Environment(
    fetched: Option<Snapshot>,
    first: WriteOutcome,
    response: Response,
    refetched: Option<Snapshot>,
    second: WriteOutcome,
    cancelled: bool)

  /** What happened in a round: the replica after the bootstrap, the frames and what stopped them, and the replica after
      those. */
  datatype Round = Round(
    ready: Replica,
    events: seq<Event>,
    faults: seq<Faults>,
    stop: Option<Outcome>,
    read: Replica)

  /** The frames up to the one that stopped the reader, or up to the first that is not an event, or all of them. */
  predicate Received(response: Response, events: seq<Event>, faults: seq<Faults>, stop: Option<Outcome>) {
    match response
    case Refused => events == []
    case Opened(frames) =>
      && |events| == |faults| <= |frames|
      && (forall i :: 0 <= i < |events| ==> frames[i] == Frame(events[i], faults[i]))
      && (stop.None? ==> |events| == |frames| || frames[|events|] == Garbled)
  }

  /** A round that took a replica from r to r'. */
  ghost predicate Taken(r: Replica, env: Environment, round: Round, r': Replica) {
    && round.ready == (if r.bootstrapped then r else Recover(r, env.fetched, env.first).0)
    && (if round.ready.bootstrapped then Received(env.response, round.events, round.faults, round.stop)
        else round.events == [])
    && Processed(round.ready, round.events, round.faults, round.read, round.stop)
    && r' == (if round.stop == Some(Gap) && !env.cancelled then Recover(round.read, env.refetched, env.second).0
              else round.read)
  }
}
