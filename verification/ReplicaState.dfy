/** A replica's durable tables and memory, and its operations, as functions on values. */
module ReplicaState {
  import opened Domain
  import opened EventLog

  /** A replica: the two durable tables, then the fields lost in a crash. */
  datatype Replica = Replica(
    applied: map<string, int>,
    checkpoint: int,
    markets: map<string, MarketState>,
    history: map<string, seq<Event>>,
    lastApplied: int,
    coreLastSeq: int,
    bootstrapped: bool)

  /** A write to the replica's database: done, without effect, or done although it reports an error. */
  datatype WriteOutcome = Done | Lost | DoneUnreported

  datatype ValidationError =
    | MissingEventId | BadSeq | MissingMarketId | UnsupportedType
    | BadPayload | UnsupportedStatus | MarketMismatch | StatusMismatch

  datatype Decoding = Market(market: MarketState) | Rejected(error: ValidationError)

  datatype Outcome = Applied | Duplicate | Gap | Invalid(error: ValidationError) | StoreFailed

  function ValidateEnvelope(evt: Event): (error: Option<ValidationError>)
    ensures error.None? <==> evt.id != "" && evt.seqNo >= 1 && evt.marketId != "" && !evt.kind.OtherType?
    ensures error == Some(MissingEventId) <==> evt.id == ""
    ensures error == Some(BadSeq) <==> evt.id != "" && evt.seqNo < 1
    ensures error == Some(MissingMarketId) <==> evt.id != "" && evt.seqNo >= 1 && evt.marketId == ""
  {
    if evt.id == "" then Some(MissingEventId)
    else if evt.seqNo <= 0 then Some(BadSeq)
    else if evt.marketId == "" then Some(MissingMarketId)
    else if evt.kind.OtherType? then Some(UnsupportedType)
    else None
  }

  function ValidateMarketState(market: MarketState): (error: Option<ValidationError>)
    ensures error.None? <==> market.marketId != "" && (market.status == Open || market.status == Suspended)
    ensures error == Some(MissingMarketId) <==> market.marketId == ""
    ensures error.Some? ==> error == Some(MissingMarketId) || error == Some(UnsupportedStatus)
  {
    if market.marketId == "" then Some(MissingMarketId)
    else if market.status != Open && market.status != Suspended then Some(UnsupportedStatus)
    else None
  }

  function DecodePayload(evt: Event): Decoding {
    match evt.payload
    case Undecodable => Rejected(BadPayload)
    case Decoded(market) =>
      match ValidateMarketState(market)
      case Some(error) => Rejected(error)
      case None =>
        if market.marketId != evt.marketId then Rejected(MarketMismatch)
        else if evt.kind == MarketSuspended && market.status != Suspended then Rejected(StatusMismatch)
        else if evt.kind == MarketReopened && market.status != Open then Rejected(StatusMismatch)
        else Market(market)
  }

  /** What a payload must be beside decodable: a named market with a status the replica knows, the one the envelope
      names, suspended in a suspension and open in a reopening. */
  predicate PayloadFits(evt: Event, market: MarketState) {
    && market.marketId != "" && market.marketId == evt.marketId
    && (market.status == Open || market.status == Suspended)
    && !(evt.kind == MarketSuspended && market.status != Suspended)
    && !(evt.kind == MarketReopened && market.status != Open)
  }

  /** Which payloads are rejected, and for what: the first check that fails names the reason. */
  lemma PayloadCases(evt: Event)
    ensures evt.payload.Undecodable? ==> DecodePayload(evt) == Rejected(BadPayload)
    ensures evt.payload.Decoded? ==>
              var market := evt.payload.market;
              var decoding := DecodePayload(evt);
              && (decoding == Market(market) <==> PayloadFits(evt, market))
              && (decoding.Market? ==> decoding.market == market)
              && (decoding == Rejected(MissingMarketId) <==> market.marketId == "")
              && (decoding == Rejected(UnsupportedStatus) <==>
                  market.marketId != "" && market.status != Open && market.status != Suspended)
              && (decoding == Rejected(MarketMismatch) <==>
                  && market.marketId != "" && (market.status == Open || market.status == Suspended)
                  && market.marketId != evt.marketId)
  {
  }

  /** The replica's validators accept an event exactly when it is well formed as the core writes events, which is
      also said here without that definition. */
  lemma ValidatorsAcceptWellFormed(evt: Event)
    ensures ValidateEnvelope(evt).None? && DecodePayload(evt).Market? <==> WellFormed(evt)
    ensures WellFormed(evt) ==> DecodePayload(evt) == Market(MarketOf(evt))
    ensures WellFormed(evt) <==>
            && evt.id != "" && evt.seqNo >= 1 && evt.marketId != "" && !evt.kind.OtherType?
            && evt.payload.Decoded? && PayloadFits(evt, evt.payload.market)
  {
    PayloadCases(evt);
  }

  predicate SnapshotAcceptable(snapshot: Snapshot, minSeq: int) {
    && snapshot.lastSeq >= 0
    && snapshot.lastSeq >= minSeq
    && forall m <- snapshot.markets.Keys ::
         m != "" && snapshot.markets[m].marketId == m && KnownStatus(snapshot.markets[m].status)
  }

  // ---------- Durable writes ----------

  /** The two tables after a commit attempt, and the answer: newly applied, already applied, or an error. */
  function CommitApplied(applied: map<string, int>, checkpoint: int, id: string, seqNo: int, outcome: WriteOutcome)
    : (map<string, int>, int, Option<bool>)
  {
    if outcome == Lost then (applied, checkpoint, None)
    else if id in applied then (applied, checkpoint, if outcome == Done then Some(false) else None)
    else (applied[id := seqNo], seqNo, if outcome == Done then Some(true) else None)
  }

  // ---------- Operations ----------

  function NewReplica(applied: map<string, int>, checkpoint: int): Replica {
    Replica(applied, checkpoint, map[], map[], checkpoint, 0, false)
  }

  function Restart(r: Replica): Replica {
    NewReplica(r.applied, r.checkpoint)
  }

  function SawSeq(r: Replica, seqNo: int): Replica {
    r.(coreLastSeq := if seqNo > r.coreLastSeq then seqNo else r.coreLastSeq)
  }

  function HistoryOf(history: map<string, seq<Event>>, m: string): seq<Event> {
    if m in history then history[m] else []
  }

  /** The in-memory half of an application, after the commit. */
  function Remember(r: Replica, evt: Event, market: MarketState): Replica {
    SawSeq(r, evt.seqNo).(
      markets := r.markets[market.marketId := market],
      history := r.history[market.marketId := HistoryOf(r.history, market.marketId) + [evt]],
      lastApplied := evt.seqNo)
  }

  function ProcessEvent(r: Replica, evt: Event, lookup: bool, commit: WriteOutcome): (Replica, Outcome) {
    match ValidateEnvelope(evt)
    case Some(error) => (r, Invalid(error))
    case None =>
      if !lookup then (r, StoreFailed)
      else if evt.id in r.applied then (SawSeq(r, evt.seqNo), Duplicate)
      else if evt.seqNo != r.lastApplied + 1 then (r, Gap)
      else
        match DecodePayload(evt)
        case Rejected(error) => (r, Invalid(error))
        case Market(market) =>
          var (applied, checkpoint, committed) := CommitApplied(r.applied, r.checkpoint, evt.id, evt.seqNo, commit);
          var stored := r.(applied := applied, checkpoint := checkpoint);
          match committed
          case None => (stored, StoreFailed)
          case Some(false) => (SawSeq(stored, evt.seqNo), Duplicate)
          case Some(true) => (Remember(stored, evt, market), Applied)
  }

  /** Replace the memory by a snapshot once the checkpoint is stored. */
  function Refresh(r: Replica, snapshot: Snapshot, write: WriteOutcome): (Replica, bool) {
    if !SnapshotAcceptable(snapshot, r.lastApplied) then (r, false)
    else
      match write
      case Lost => (r, false)
      case DoneUnreported => (r.(checkpoint := snapshot.lastSeq), false)
      case Done =>
        (Replica(r.applied, snapshot.lastSeq, snapshot.markets, map[], snapshot.lastSeq, snapshot.lastSeq, true), true)
  }

  /** A refresh with whatever the fetch brought. */
  function Recover(r: Replica, fetched: Option<Snapshot>, write: WriteOutcome): (Replica, bool) {
    match fetched
    case None => (r, false)
    case Some(snapshot) => Refresh(r, snapshot, write)
  }

  /** Frames go on being read only while they are applied or skipped as duplicates. */
  predicate Continues(outcome: Outcome) {
    outcome == Applied || outcome == Duplicate
  }

  /** What the database did while one frame was processed. */
  datatype Faults = Faults(lookup: bool, commit: WriteOutcome)

  /** The replica after a run of frames, none of which stopped the reader. */
  function Consume(r: Replica, events: seq<Event>, faults: seq<Faults>): Replica
    requires |faults| == |events|
  {
    if events == [] then r
    else
      var n := |events| - 1;
      ProcessEvent(Consume(r, events[..n], faults[..n]), events[n], faults[n].lookup, faults[n].commit).0
  }

  /** The outcome of frame i of such a run. */
  function OutcomeAt(r: Replica, events: seq<Event>, faults: seq<Faults>, i: nat): Outcome
    requires |faults| == |events| && i < |events|
  {
    ProcessEvent(Consume(r, events[..i], faults[..i]), events[i], faults[i].lookup, faults[i].commit).1
  }

  /** One more frame: the earlier outcomes stand. */
  lemma ConsumeMore(r: Replica, events: seq<Event>, faults: seq<Faults>, evt: Event, fault: Faults)
    requires |faults| == |events|
    ensures
      var (after, outcome) := ProcessEvent(Consume(r, events, faults), evt, fault.lookup, fault.commit);
      && Consume(r, events + [evt], faults + [fault]) == after
      && OutcomeAt(r, events + [evt], faults + [fault], |events|) == outcome
    ensures forall i :: 0 <= i < |events| ==>
              OutcomeAt(r, events + [evt], faults + [fault], i) == OutcomeAt(r, events, faults, i)
  {
    assert (events + [evt])[..|events|] == events && (faults + [fault])[..|events|] == faults;
    forall i | 0 <= i < |events|
      ensures OutcomeAt(r, events + [evt], faults + [fault], i) == OutcomeAt(r, events, faults, i)
    {
      assert (events + [evt])[..i] == events[..i] && (faults + [fault])[..i] == faults[..i];
    }
  }

  /** From r, these frames were processed one by one up to r', and none stopped the reader, except that the last
      one did if an outcome is given. */
  ghost predicate Processed(r: Replica, events: seq<Event>, faults: seq<Faults>, r': Replica, stop: Option<Outcome>) {
    && |faults| == |events|
    && r' == Consume(r, events, faults)
    && (stop.Some? ==>
        events != [] && !Continues(stop.value) && OutcomeAt(r, events, faults, |events| - 1) == stop.value)
    && (forall i :: 0 <= i < (if stop.Some? then |events| - 1 else |events|) ==>
        Continues(OutcomeAt(r, events, faults, i)))
  }

  lemma ProcessedMore(r: Replica, events: seq<Event>, faults: seq<Faults>, r': Replica, evt: Event, fault: Faults)
    requires Processed(r, events, faults, r', None)
    ensures
      var (after, outcome) := ProcessEvent(r', evt, fault.lookup, fault.commit);
      Processed(r, events + [evt], faults + [fault], after, if Continues(outcome) then None else Some(outcome))
  {
    ConsumeMore(r, events, faults, evt, fault);
  }

  // ---------- Any stream at all ----------

  /** Whatever arrives, and whatever the database does: exactly which of the five outcomes an event has. */
  lemma OutcomeCases(r: Replica, evt: Event, lookup: bool, commit: WriteOutcome)
    ensures
      var outcome := ProcessEvent(r, evt, lookup, commit).1;
      var good := evt.id != "" && evt.seqNo >= 1 && evt.marketId != "" && !evt.kind.OtherType?;
      var known := evt.id in r.applied;
      var next := evt.seqNo == r.lastApplied + 1;
      var fits := evt.payload.Decoded? && PayloadFits(evt, evt.payload.market);
      && (outcome.Invalid? <==> !good || (good && lookup && !known && next && !fits))
      && (outcome == StoreFailed <==> good && (!lookup || (!known && next && fits && commit != Done)))
      && (outcome == Duplicate <==> good && lookup && known)
      && (outcome == Gap <==> good && lookup && !known && !next)
      && (outcome == Applied <==> good && lookup && !known && next && fits && commit == Done)
      && (Continues(outcome) <==>
          good && lookup && (known || (next && fits && commit == Done)))
  {
    PayloadCases(evt);
  }

  /** And exactly what it does to each field: memory moves on an application and nothing else, the highest number seen
      moves with an application or a duplicate, and the dedupe table gets the event's own row together with the
      checkpoint if its commit took effect. */
  lemma ProcessEventCases(r: Replica, evt: Event, lookup: bool, commit: WriteOutcome)
    ensures
      var (after, outcome) := ProcessEvent(r, evt, lookup, commit);
      var fits := WellFormed(evt) && lookup && evt.id !in r.applied && evt.seqNo == r.lastApplied + 1;
      && (outcome == Applied <==> fits && commit == Done)
      && (outcome == Applied ==>
          && after.lastApplied == after.checkpoint == evt.seqNo
          && after.markets == r.markets[evt.marketId := MarketOf(evt)]
          && after.history ==
             r.history[evt.marketId := (if evt.marketId in r.history then r.history[evt.marketId] else []) + [evt]])
      && (outcome != Applied ==>
          after.markets == r.markets && after.history == r.history && after.lastApplied == r.lastApplied)
      && (if fits && commit != Lost then
            after.applied == r.applied[evt.id := evt.seqNo] && after.checkpoint == evt.seqNo
          else after.applied == r.applied && after.checkpoint == r.checkpoint)
      && after.bootstrapped == r.bootstrapped
      && after.coreLastSeq ==
         (if (outcome == Applied || outcome == Duplicate) && evt.seqNo > r.coreLastSeq then evt.seqNo
          else r.coreLastSeq)
  {
    ValidatorsAcceptWellFormed(evt);
  }

  /** A snapshot fits a replica: its number is not negative and not behind what was applied, and every market is
      filed under its own non-empty name and is open or suspended. */
  predicate SnapshotFits(snapshot: Snapshot, lastApplied: int) {
    && 0 <= snapshot.lastSeq && lastApplied <= snapshot.lastSeq
    && (forall m <- snapshot.markets.Keys ::
        && m != "" && snapshot.markets[m].marketId == m
        && (snapshot.markets[m].status == Open || snapshot.markets[m].status == Suspended))
  }

  /** Whatever a fetch brings and the store does: exactly when a recovery succeeds, and what it then does to every
      field. One that fails leaves memory alone, and the store too, unless the number of a fitting snapshot took
      effect unreported. */
  lemma RecoverCases(r: Replica, fetched: Option<Snapshot>, write: WriteOutcome)
    ensures
      var (after, ok) := Recover(r, fetched, write);
      && (ok <==> fetched.Some? && SnapshotFits(fetched.value, r.lastApplied) && write == Done)
      && after.applied == r.applied
      && (ok ==>
          && after.bootstrapped && after.markets == fetched.value.markets && after.history == map[]
          && after.checkpoint == after.lastApplied == after.coreLastSeq == fetched.value.lastSeq)
      && (!ok ==>
          && after.bootstrapped == r.bootstrapped && after.markets == r.markets && after.history == r.history
          && after.lastApplied == r.lastApplied && after.coreLastSeq == r.coreLastSeq
          && after.checkpoint ==
             (if fetched.Some? && SnapshotFits(fetched.value, r.lastApplied) && write == DoneUnreported
              then fetched.value.lastSeq else r.checkpoint))
  {
  }

  /** What a restart leaves of a replica: its two tables. */
  lemma RestartCases(r: Replica)
    ensures
      var after := Restart(r);
      && after.applied == r.applied && after.checkpoint == r.checkpoint && after.lastApplied == r.checkpoint
      && after.markets == map[] && after.history == map[] && after.coreLastSeq == 0 && !after.bootstrapped
  {
  }

  /** How many of these frames were applied. */
  function AppliedCount(r: Replica, events: seq<Event>, faults: seq<Faults>): nat
    requires |faults| == |events|
  {
    if events == [] then 0
    else
      var n := |events| - 1;
      AppliedCount(r, events[..n], faults[..n]) + (if OutcomeAt(r, events, faults, n) == Applied then 1 else 0)
  }

  lemma OutcomeInPrefix(r: Replica, events: seq<Event>, faults: seq<Faults>, n: nat, i: nat)
    requires |faults| == |events| && i < n <= |events|
    ensures OutcomeAt(r, events[..n], faults[..n], i) == OutcomeAt(r, events, faults, i)
  {
    assert events[..n][..i] == events[..i] && faults[..n][..i] == faults[..i];
  }

  lemma LastFrame(r: Replica, events: seq<Event>, faults: seq<Faults>)
    requires |faults| == |events| && events != []
    ensures
      var n := |events| - 1;
      var before, after := Consume(r, events[..n], faults[..n]), Consume(r, events, faults);
      && before.applied.Keys <= after.applied.Keys
      && (if OutcomeAt(r, events, faults, n) == Applied then
            after.lastApplied == before.lastApplied + 1 && events[n].id in after.applied
          else after.lastApplied == before.lastApplied)
  {
    var n := |events| - 1;
    ProcessEventCases(Consume(r, events[..n], faults[..n]), events[n], faults[n].lookup, faults[n].commit);
  }

  lemma {:induction false} ConsumeCounts(r: Replica, events: seq<Event>, faults: seq<Faults>)
    requires |faults| == |events|
    ensures Consume(r, events, faults).lastApplied == r.lastApplied + AppliedCount(r, events, faults)
    ensures r.applied.Keys <= Consume(r, events, faults).applied.Keys
  {
    if events == [] {
    } else {
      ConsumeCounts(r, events[..|events| - 1], faults[..|events| - 1]);
      LastFrame(r, events, faults);
    }
  }

  lemma {:induction false} AppliedIsRemembered(r: Replica, events: seq<Event>, faults: seq<Faults>, i: nat)
    requires |faults| == |events| && i < |events| && OutcomeAt(r, events, faults, i) == Applied
    ensures events[i].id in Consume(r, events, faults).applied
    decreases |events|
  {
    var n := |events| - 1;
    LastFrame(r, events, faults);
    if i < n {
      OutcomeInPrefix(r, events, faults, n, i);
      AppliedIsRemembered(r, events[..n], faults[..n], i);
    }
  }

  /** Against any stream, the core's or not, with repeats and reorderings, and under every fault: the applied events
      carry consecutive numbers from lastApplied + 1 on, their ids are new, and no id is applied twice. */
  lemma AppliesOnceInOrder(r: Replica, events: seq<Event>, faults: seq<Faults>, i: nat, j: nat)
    requires |faults| == |events| && i <= j < |events|
    requires OutcomeAt(r, events, faults, i) == Applied && OutcomeAt(r, events, faults, j) == Applied
    ensures events[j].seqNo == r.lastApplied + AppliedCount(r, events[..j], faults[..j]) + 1
    ensures events[j].id !in r.applied
    ensures i < j ==> events[i].id != events[j].id
    ensures Consume(r, events, faults).lastApplied == r.lastApplied + AppliedCount(r, events, faults)
  {
    ConsumeCounts(r, events, faults);
    ConsumeCounts(r, events[..j], faults[..j]);
    ProcessEventCases(Consume(r, events[..j], faults[..j]), events[j], faults[j].lookup, faults[j].commit);
    if i < j {
      OutcomeInPrefix(r, events, faults, j, i);
      AppliedIsRemembered(r, events[..j], faults[..j], i);
    }
  }

  // ---------- Histories ----------

  /** The events about one market, in order. */
  function About(events: seq<Event>, m: string): seq<Event> {
    if events == [] then []
    else
      var rest := About(events[..|events| - 1], m);
      var last := events[|events| - 1];
      if last.marketId == m then rest + [last] else rest
  }

  ghost predicate HistoriesOf(history: map<string, seq<Event>>, events: seq<Event>) {
    && (forall m :: HistoryOf(history, m) == About(events, m))
    && (forall m :: m in history ==> history[m] != [])
  }

  function TotalLength(events: seq<Event>, ids: seq<string>): nat {
    if ids == [] then 0
    else TotalLength(events, ids[..|ids| - 1]) + |About(events, ids[|ids| - 1])|
  }

  lemma {:induction false} TotalLengthAppend(events: seq<Event>, evt: Event, ids: seq<string>)
    requires forall i, j :: 0 <= i < j < |ids| ==> ids[i] != ids[j]
    ensures TotalLength(events + [evt], ids) == TotalLength(events, ids) + (if evt.marketId in ids then 1 else 0)
  {
    if ids == [] {
    } else {
      var init, last := ids[..|ids| - 1], ids[|ids| - 1];
      TotalLengthAppend(events, evt, init);
      assert (events + [evt])[..|events|] == events;
      assert ids == init + [last];
    }
  }

  /** The per-market histories partition the events: together they are as long, and each is ascending. */
  lemma {:induction false} HistoriesPartition(events: seq<Event>, ids: seq<string>)
    requires forall i, j :: 0 <= i < j < |ids| ==> ids[i] != ids[j]
    requires forall i :: 0 <= i < |events| ==> events[i].marketId in ids
    ensures TotalLength(events, ids) == |events|
  {
    if events == [] {
      NothingAbout(ids);
    } else {
      var init := events[..|events| - 1];
      HistoriesPartition(init, ids);
      TotalLengthAppend(init, events[|events| - 1], ids);
      assert events == init + [events[|events| - 1]];
    }
  }

  lemma {:induction false} NothingAbout(ids: seq<string>)
    ensures TotalLength([], ids) == 0
  {
    if ids == [] {
    } else {
      NothingAbout(ids[..|ids| - 1]);
    }
  }

  /** A history is ascending, holds only events about its market, and ends with the last of them. */
  lemma {:induction false} AboutOrdered(events: seq<Event>, m: string)
    requires Ordered(events)
    ensures Ordered(About(events, m))
    ensures forall i :: 0 <= i < |About(events, m)| ==>
              About(events, m)[i] in events && About(events, m)[i].marketId == m
  {
    if events == [] {
    } else {
      AboutOrdered(events[..|events| - 1], m);
    }
  }
}
