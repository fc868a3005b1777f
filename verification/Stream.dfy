/** One stream session: subscribe, replay the backlog, then merge live events, filling gaps from the log. */
module Stream {
  import opened Domain
  import opened EventLog
  import opened Hub

  const SUBSCRIBER_BUFFER: nat := 1024

  /** How far a session has come: the next sequence number it owes and the frames it has written. */
  datatype Cursor = Cursor(next: int, written: seq<Event>)

  function Write(cur: Cursor, evt: Event): Cursor {
    Cursor(evt.seqNo + 1, cur.written + [evt])
  }

  function WriteAll(cur: Cursor, events: seq<Event>): Cursor {
    if events == [] then cur
    else Write(WriteAll(cur, events[..|events| - 1]), events[|events| - 1])
  }

  lemma {:induction false} WriteAllAppends(cur: Cursor, events: seq<Event>)
    ensures WriteAll(cur, events).written == cur.written + events
  {
    if events == [] {
    } else {
      WriteAllAppends(cur, events[..|events| - 1]);
      assert events == events[..|events| - 1] + [events[|events| - 1]];
    }
  }

  /** The cursor after the backlog, read when the log held these rows. */
  function AfterBacklog(fromSeq: int, rows: seq<Event>): Cursor {
    WriteAll(Cursor(fromSeq, []), From(rows, fromSeq))
  }

  /** One live event, merged when the log holds these rows. */
  function OnLive(cur: Cursor, evt: Event, rows: seq<Event>): Cursor {
    if evt.seqNo < cur.next then cur
    else if evt.seqNo > cur.next then
      var filled := WriteAll(cur, From(rows, cur.next));
      if evt.seqNo < filled.next then filled else Write(filled, evt)
    else Write(cur, evt)
  }

  /** The frames are exactly the log from fromSeq on, up to but not including next. */
  ghost predicate Contiguous(cur: Cursor, fromSeq: int, rows: seq<Event>) {
    && 1 <= fromSeq <= cur.next
    && (cur.next > fromSeq ==> cur.next - 1 <= |rows|)
    && cur.written == (if cur.next > fromSeq then rows[fromSeq - 1..cur.next - 1] else [])
  }

  lemma ContiguousStable(cur: Cursor, fromSeq: int, rows: seq<Event>, rows': seq<Event>)
    requires Contiguous(cur, fromSeq, rows) && rows <= rows'
    ensures Contiguous(cur, fromSeq, rows')
  {
    if cur.next > fromSeq {
      assert rows'[fromSeq - 1..cur.next - 1] == rows[fromSeq - 1..cur.next - 1];
    }
  }

  lemma SliceStep(rows: seq<Event>, from: nat, n: nat)
    requires from < n <= |rows|
    ensures
      var events := rows[from..n];
      events[..|events| - 1] == rows[from..n - 1] && events[|events| - 1] == rows[n - 1]
  {
  }

  lemma WriteNothing(cur: Cursor, rows: seq<Event>, n: nat)
    requires n <= |rows|
    ensures WriteAll(cur, rows[n..n]) == cur
  {
  }

  lemma WriteAllStep(cur: Cursor, rows: seq<Event>, from: nat, n: nat)
    requires from < n <= |rows|
    ensures WriteAll(cur, rows[from..n]) == Write(WriteAll(cur, rows[from..n - 1]), rows[n - 1])
  {
    SliceStep(rows, from, n);
  }

  /** Writing the event the cursor is waiting for. */
  lemma WriteNext(cur: Cursor, after: Cursor, fromSeq: int, rows: seq<Event>, n: nat)
    requires GapFree(rows) && Contiguous(cur, fromSeq, rows)
    requires cur.next == n <= |rows| && after == Write(cur, rows[n - 1])
    ensures Contiguous(after, fromSeq, rows) && after.next == n + 1
  {
    if n > fromSeq {
      SliceStep(rows, fromSeq - 1, n);
    }
    assert rows[fromSeq - 1..n] == rows[fromSeq - 1..n - 1] + [rows[n - 1]];
  }

  /** Writing the log from the cursor on leaves no gap. */
  lemma {:induction false} WriteAllContiguous(cur: Cursor, fromSeq: int, rows: seq<Event>, n: nat)
    requires GapFree(rows) && Contiguous(cur, fromSeq, rows)
    requires cur.next - 1 <= n <= |rows|
    ensures
      var after := WriteAll(cur, rows[cur.next - 1..n]);
      Contiguous(after, fromSeq, rows) && after.next == n + 1
    decreases n
  {
    if cur.next - 1 < n {
      WriteAllContiguous(cur, fromSeq, rows, n - 1);
      var mid, after := WriteAll(cur, rows[cur.next - 1..n - 1]), WriteAll(cur, rows[cur.next - 1..n]);
      WriteAllStep(cur, rows, cur.next - 1, n);
      WriteNext(mid, after, fromSeq, rows, n);
    } else {
      WriteNothing(cur, rows, n);
    }
  }

  /** Catching up from the log reaches its end. */
  lemma CatchUp(cur: Cursor, fromSeq: int, rows: seq<Event>)
    requires GapFree(rows) && Contiguous(cur, fromSeq, rows)
    ensures
      var after := WriteAll(cur, From(rows, cur.next));
      && Contiguous(after, fromSeq, rows)
      && after.next == (if cur.next <= |rows| then |rows| + 1 else cur.next)
  {
    FromIsSuffix(rows, cur.next);
    if cur.next <= |rows| {
      WriteAllContiguous(cur, fromSeq, rows, |rows|);
    }
  }

  lemma BacklogContiguous(fromSeq: int, rows: seq<Event>)
    requires GapFree(rows) && fromSeq >= 1
    ensures
      var cur := AfterBacklog(fromSeq, rows);
      && Contiguous(cur, fromSeq, rows)
      && cur.next == (if fromSeq <= |rows| then |rows| + 1 else fromSeq)
  {
    CatchUp(Cursor(fromSeq, []), fromSeq, rows);
  }

  /** A live event that is in the log by the time it is merged never opens a gap, repeats a frame or reorders
      frames, and afterwards it has been written if the session asked for it. */
  lemma LiveContiguous(cur: Cursor, fromSeq: int, evt: Event, rows: seq<Event>)
    requires GapFree(rows) && Contiguous(cur, fromSeq, rows)
    requires 1 <= evt.seqNo <= |rows| && rows[evt.seqNo - 1] == evt
    ensures
      var after := OnLive(cur, evt, rows);
      && Contiguous(after, fromSeq, rows)
      && cur.written <= after.written && cur.next <= after.next
      && evt.seqNo < after.next
  {
    if evt.seqNo > cur.next {
      CatchUp(cur, fromSeq, rows);
      WriteAllAppends(cur, From(rows, cur.next));
    } else if evt.seqNo == cur.next {
      assert rows[fromSeq - 1..cur.next] == rows[fromSeq - 1..cur.next - 1] + [evt];
    }
  }

  /** The next number after a range of events, from a cursor. */
  lemma WriteAllNext(cur: Cursor, events: seq<Event>)
    ensures WriteAll(cur, events) ==
            Cursor(if events == [] then cur.next else events[|events| - 1].seqNo + 1, cur.written + events)
  {
    WriteAllAppends(cur, events);
  }

  /** What a live event does to a session, whatever the log shows it: it is skipped if it is behind, written if it is
      the next one, and if it is ahead the log from the cursor on is written first, and then the event itself unless
      the log has reached it. */
  lemma LiveCases(cur: Cursor, evt: Event, rows: seq<Event>)
    ensures
      var after, fill := OnLive(cur, evt, rows), From(rows, cur.next);
      var filled := if fill == [] then cur.next else fill[|fill| - 1].seqNo + 1;
      && (evt.seqNo < cur.next ==> after == cur)
      && (evt.seqNo == cur.next ==> after == Cursor(cur.next + 1, cur.written + [evt]))
      && (evt.seqNo > cur.next && evt.seqNo < filled ==> after == Cursor(filled, cur.written + fill))
      && (evt.seqNo > cur.next && evt.seqNo >= filled ==> after == Cursor(evt.seqNo + 1, cur.written + fill + [evt]))
  {
    WriteAllNext(cur, From(rows, cur.next));
  }

  // ---------- A whole session ----------

  /** What the select of the live loop wakes up for; a live event carries the log as a gap-fill read would find
      it then, and whether that read works. */
  datatype Wake = Keepalive | Live(evt: Event, rows: seq<Event>, readable: bool) | ChannelClosed | Cancelled

  /** The from_seq query parameter. */
  datatype Query = Absent | Unparsable | Parsed(n: int)

  predicate EndsSession(cur: Cursor, wake: Wake) {
    match wake
    case Keepalive => false
    case Live(evt, rows, readable) => evt.seqNo > cur.next && !readable
    case ChannelClosed => true
    case Cancelled => true
  }

  function AfterWake(cur: Cursor, wake: Wake): Cursor {
    match wake
    case Live(evt, rows, _) => OnLive(cur, evt, rows)
    case _ => cur
  }

  /** The cursor after a series of wake-ups, cut short by the first that ends the session. */
  function AfterWakes(cur: Cursor, wakes: seq<Wake>): Cursor
    decreases |wakes|
  {
    if wakes == [] || EndsSession(cur, wakes[0]) then cur
    else AfterWakes(AfterWake(cur, wakes[0]), wakes[1..])
  }

  /** The environment of a session: the log only grows between reads, and every live event is in it. */
  ghost predicate Plausible(rows: seq<Event>, wakes: seq<Wake>)
    decreases |wakes|
  {
    wakes != [] ==>
      match wakes[0]
      case Live(evt, now, _) =>
        && GapFree(now) && rows <= now
        && 1 <= evt.seqNo <= |now| && now[evt.seqNo - 1] == evt
        && Plausible(now, wakes[1..])
      case _ => Plausible(rows, wakes[1..])
  }

  /** The log as the last read of a session found it. */
  function LastRead(rows: seq<Event>, wakes: seq<Wake>): seq<Event>
    decreases |wakes|
  {
    if wakes == [] then rows
    else LastRead(if wakes[0].Live? then wakes[0].rows else rows, wakes[1..])
  }

  lemma {:induction false} WakesContiguous(cur: Cursor, fromSeq: int, rows: seq<Event>, wakes: seq<Wake>)
    requires GapFree(rows) && Contiguous(cur, fromSeq, rows) && Plausible(rows, wakes)
    ensures rows <= LastRead(rows, wakes)
    ensures Contiguous(AfterWakes(cur, wakes), fromSeq, LastRead(rows, wakes))
    decreases |wakes|
  {
    if wakes == [] {
    } else {
      var now := if wakes[0].Live? then wakes[0].rows else rows;
      ContiguousStable(cur, fromSeq, rows, now);
      var after := if EndsSession(cur, wakes[0]) then cur else AfterWake(cur, wakes[0]);
      if wakes[0].Live? {
        LiveContiguous(cur, fromSeq, wakes[0].evt, now);
      }
      WakesContiguous(after, fromSeq, now, wakes[1..]);
      if EndsSession(cur, wakes[0]) {
        WakesContiguous(cur, fromSeq, now, wakes[1..]);
        ContiguousStable(cur, fromSeq, now, LastRead(now, wakes[1..]));
      }
    }
  }

  /** A wake-up after which a session writes nothing more: its channel is closed, it is cancelled, or it needs the log
      for a gap and cannot read it. */
  predicate Final(cur: Cursor, wake: Wake) {
    wake == ChannelClosed || wake == Cancelled || (wake.Live? && wake.evt.seqNo > cur.next && !wake.readable)
  }

  /** A session takes its wake-ups one by one: a final one ends it and what comes later is ignored; a keepalive
      changes nothing; any other live event is merged. */
  lemma WakeCases(cur: Cursor, wake: Wake, later: seq<Wake>)
    ensures AfterWakes(cur, []) == cur
    ensures AfterWakes(cur, [wake] + later) ==
            if Final(cur, wake) then cur
            else if wake.Live? then AfterWakes(OnLive(cur, wake.evt, wake.rows), later)
            else AfterWakes(cur, later)
  {
    assert ([wake] + later)[1..] == later;
  }

  /** Where a writer that fails after a number of frames stops. */
  function Cut(frames: seq<Event>, budget: nat): seq<Event> {
    if budget <= |frames| then frames[..budget] else frames
  }

  lemma CutContiguous(cur: Cursor, fromSeq: int, rows: seq<Event>, budget: nat)
    requires Contiguous(cur, fromSeq, rows)
    ensures
      var frames := Cut(cur.written, budget);
      frames == [] ||
        (fromSeq - 1 + |frames| <= |rows| && frames == rows[fromSeq - 1..fromSeq - 1 + |frames|])
  {
    if cur.next > fromSeq && budget <= |cur.written| {
      assert cur.written[..budget] == rows[fromSeq - 1..fromSeq - 1 + budget];
    }
  }

  /** Every frame a session ever writes comes from the log, from fromSeq on, in order, without gap or repeat,
      wherever the session is cut and however the log grows meanwhile. */
  lemma SessionWritesLog(fromSeq: int, rows: seq<Event>, wakes: seq<Wake>, budget: nat)
    requires fromSeq >= 1 && GapFree(rows) && Plausible(rows, wakes)
    ensures
      var frames := Cut(AfterWakes(AfterBacklog(fromSeq, rows), wakes).written, budget);
      var log := LastRead(rows, wakes);
      frames == [] || (fromSeq - 1 + |frames| <= |log| && frames == log[fromSeq - 1..fromSeq - 1 + |frames|])
  {
    BacklogContiguous(fromSeq, rows);
    WakesContiguous(AfterBacklog(fromSeq, rows), fromSeq, rows, wakes);
    CutContiguous(AfterWakes(AfterBacklog(fromSeq, rows), wakes), fromSeq, LastRead(rows, wakes), budget);
  }

  datatype Response = BadRequest | BacklogFailed | Streamed

  /** The frames of a session opened at fromSeq, if nothing stops the writer early. */
  function SessionFrames(fromSeq: int, rows: seq<Event>, wakes: seq<Wake>): seq<Event> {
    AfterWakes(AfterBacklog(fromSeq, rows), wakes).written
  }

  /** A frame writer whose connection takes a limited number of frames. */
  class FrameWriter {
    var frames: seq<Event>
    var budget: nat

    constructor (budget: nat)
      ensures frames == [] && this.budget == budget
    {
      frames, this.budget := [], budget;
    }

    method WriteFrame(evt: Event) returns (ok: bool)
      modifies this
      ensures ok <==> old(budget) > 0
      ensures ok ==> frames == old(frames) + [evt] && budget == old(budget) - 1
      ensures !ok ==> frames == old(frames) && budget == 0
    {
      ok := budget > 0;
      if ok {
        frames := frames + [evt];
        budget := budget - 1;
      }
    }
  }

  lemma OnLiveAppends(cur: Cursor, evt: Event, rows: seq<Event>)
    ensures cur.written <= OnLive(cur, evt, rows).written
  {
    WriteAllAppends(cur, From(rows, cur.next));
  }

  lemma {:induction false} WakesAppend(cur: Cursor, wakes: seq<Wake>)
    ensures cur.written <= AfterWakes(cur, wakes).written
    decreases |wakes|
  {
    if wakes == [] || EndsSession(cur, wakes[0]) {
    } else {
      if wakes[0].Live? {
        OnLiveAppends(cur, wakes[0].evt, wakes[0].rows);
      }
      WakesAppend(AfterWake(cur, wakes[0]), wakes[1..]);
    }
  }

  /** Write a range of events frame by frame; a failed write leaves the frames that fit. */
  method WriteRange(w: FrameWriter, events: seq<Event>, next: int) returns (ok: bool, next': int)
    modifies w
    ensures |w.frames| + w.budget == old(|w.frames| + w.budget)
    ensures ok ==> Cursor(next', w.frames) == WriteAll(Cursor(next, old(w.frames)), events)
    ensures !ok ==> w.budget == 0 && w.frames <= WriteAll(Cursor(next, old(w.frames)), events).written
  {
    next' := next;
    for i := 0 to |events|
      invariant |w.frames| + w.budget == old(|w.frames| + w.budget)
      invariant Cursor(next', w.frames) == WriteAll(Cursor(next, old(w.frames)), events[..i])
    {
      assert events[..i + 1][..i] == events[..i];
      var sent := w.WriteFrame(events[i]);
      if !sent {
        WriteAllAppends(Cursor(next, old(w.frames)), events);
        WriteAllAppends(Cursor(next, old(w.frames)), events[..i]);
        return false, next';
      }
      next' := events[i].seqNo + 1;
    }
    assert events[..|events|] == events;
    ok := true;
  }

  /** One live event: skip it, fill the gap before it, or write it. */
  method MergeLive(w: FrameWriter, evt: Event, rows: seq<Event>, next: int) returns (ok: bool, next': int)
    modifies w
    ensures |w.frames| + w.budget == old(|w.frames| + w.budget)
    ensures ok ==> Cursor(next', w.frames) == OnLive(Cursor(next, old(w.frames)), evt, rows)
    ensures !ok ==> w.budget == 0 && w.frames <= OnLive(Cursor(next, old(w.frames)), evt, rows).written
  {
    next' := next;
    if evt.seqNo < next' {
      return true, next';
    }
    if evt.seqNo > next' {
      var filled;
      filled, next' := WriteRange(w, From(rows, next'), next');
      if !filled {
        return false, next';
      }
      if evt.seqNo < next' {
        return true, next';
      }
    }
    ok := w.WriteFrame(evt);
    if ok {
      next' := evt.seqNo + 1;
    }
  }

  /** The part of the handler between subscribing and unsubscribing: whatever the wake-ups bring and wherever the
      connection breaks, the frames are those of SessionFrames, cut at the break. */
  method StreamFrom(fromSeq: int, rows: seq<Event>, readable: bool, wakes: seq<Wake>, w: FrameWriter)
    returns (response: Response)
    requires w.frames == []
    modifies w
    ensures response == if readable then Streamed else BacklogFailed
    ensures w.frames == if readable then Cut(SessionFrames(fromSeq, rows, wakes), old(w.budget)) else []
  {
    if !readable {
      return BacklogFailed;
    }
    response := Streamed;
    var ok, nextSeq := WriteRange(w, From(rows, fromSeq), fromSeq);
    ghost var frames := SessionFrames(fromSeq, rows, wakes);
    WakesAppend(AfterBacklog(fromSeq, rows), wakes);
    if !ok {
      return;
    }
    var i := 0;
    while i < |wakes|
      invariant 0 <= i <= |wakes|
      invariant |w.frames| + w.budget == old(w.budget)
      invariant AfterWakes(Cursor(nextSeq, w.frames), wakes[i..]).written == frames
    {
      ghost var cur := Cursor(nextSeq, w.frames);
      assert wakes[i..][1..] == wakes[i + 1..];
      match wakes[i] {
        case Keepalive =>
        case Live(evt, now, readableNow) =>
          if evt.seqNo > nextSeq && !readableNow {
            return;
          }
          WakesAppend(OnLive(cur, evt, now), wakes[i + 1..]);
          ok, nextSeq := MergeLive(w, evt, now, nextSeq);
          if !ok {
            return;
          }
        case ChannelClosed =>
          return;
        case Cancelled =>
          return;
      }
      i := i + 1;
    }
  }

  /** A session with its channel: subscribed before the backlog is read, and closed and gone from the registry when the
      session ends, however it ends. */
  method Serve(hub: SSEHub, fromSeq: int, rows: seq<Event>, readable: bool, wakes: seq<Wake>, w: FrameWriter)
    returns (response: Response, ghost ch: Channel)
    requires hub.Valid() && w.frames == []
    modifies hub, hub.channels, w
    ensures hub.Valid() && hub.subscribers == old(hub.subscribers) && hub.history == old(hub.history)
    ensures fresh(ch) && hub.channels == old(hub.channels) + {ch}
    ensures ch.closed && ch.capacity == 1024 && ch.joined == |old(hub.history)|
    ensures response == if readable then Streamed else BacklogFailed
    ensures w.frames == if readable then Cut(SessionFrames(fromSeq, rows, wakes), old(w.budget)) else []
  {
    ghost var before := hub.subscribers;
    var channel, id := hub.Subscribe(SUBSCRIBER_BUFFER);
    ch := channel;
    AddedAndRemoved(before, id, channel);
    response := StreamFrom(fromSeq, rows, readable, wakes, w);
    Leave(hub, id, channel);
  }

  lemma AddedAndRemoved(subscribers: map<nat, Channel>, id: nat, ch: Channel)
    requires id !in subscribers
    ensures subscribers[id := ch] - {id} == subscribers
  {
  }

  /** Unsubscribing one's own channel. */
  method Leave(hub: SSEHub, id: nat, ch: Channel)
    requires hub.Valid() && ch in hub.channels && ch.id == id
    modifies hub`subscribers, hub.channels
    ensures hub.Valid() && hub.channels == old(hub.channels) && hub.history == old(hub.history)
    ensures hub.subscribers == old(hub.subscribers) - {id} && ch.closed
  {
    hub.Unsubscribe(id);
  }

  /** The stream handler. A bad parameter is refused before anything happens. */
  method HandleStream(hub: SSEHub, query: Query, rows: seq<Event>, readable: bool, wakes: seq<Wake>, w: FrameWriter)
    returns (response: Response, ghost ch: Channel?)
    requires hub.Valid() && w.frames == []
    modifies hub, hub.channels, w
    ensures hub.Valid() && hub.subscribers == old(hub.subscribers) && hub.history == old(hub.history)
    ensures
      var refused := query.Unparsable? || (query.Parsed? && query.n < 1);
      var fromSeq := if query.Parsed? then query.n else 1;
      && response == (if refused then BadRequest else if readable then Streamed else BacklogFailed)
      && w.frames == (if response == Streamed then Cut(SessionFrames(fromSeq, rows, wakes), old(w.budget)) else [])
      && (refused <==> ch == null)
      && (refused ==> hub.channels == old(hub.channels))
    ensures ch != null ==>
              && fresh(ch) && hub.channels == old(hub.channels) + {ch}
              && ch.closed && ch.capacity == 1024 && ch.joined == |old(hub.history)|
  {
    var fromSeq := 1;
    if query.Unparsable? {
      return BadRequest, null;
    }
    if query.Parsed? {
      if query.n < 1 {
        return BadRequest, null;
      }
      fromSeq := query.n;
    }
    response, ch := Serve(hub, fromSeq, rows, readable, wakes, w);
  }
}
