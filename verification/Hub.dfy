/** In-memory fan-out of live events to bounded subscriber channels. */
module Hub {
  import opened Domain

  /** A buffered channel: its capacity, what is waiting in it, and whether it was closed. */
  datatype Chan = Chan(capacity: nat, buffer: seq<Event>, closed: bool)

  /** One broadcast, seen from one channel: buffered if there is room, evicted if there is none. */
  function Offer(ch: Chan, evt: Event): Chan {
    if ch.closed then ch
    else if |ch.buffer| < ch.capacity then ch.(buffer := ch.buffer + [evt])
    else ch.(closed := true)
  }

  /** A series of broadcasts, seen from one channel. */
  function OfferAll(ch: Chan, events: seq<Event>): Chan {
    if events == [] then ch else Offer(OfferAll(ch, events[..|events| - 1]), events[|events| - 1])
  }

  lemma OfferAllAppend(ch: Chan, events: seq<Event>, evt: Event)
    ensures OfferAll(ch, events + [evt]) == Offer(OfferAll(ch, events), evt)
  {
    assert (events + [evt])[..|events|] == events;
  }

  lemma {:induction false} OfferAllConcat(ch: Chan, a: seq<Event>, b: seq<Event>)
    ensures OfferAll(ch, a + b) == OfferAll(OfferAll(ch, a), b)
    decreases |b|
  {
    if b == [] {
      assert a + b == a;
    } else {
      OfferAllConcat(ch, a, b[..|b| - 1]);
      assert (a + b)[..|a + b| - 1] == a + b[..|b| - 1];
    }
  }

  /** Received plus buffered is a gap-free stretch of the broadcasts since the subscription: all of them while the
      channel is open, a prefix of them once it was evicted or unsubscribed. */
  ghost predicate InOrder(history: seq<Event>, joined: nat, received: seq<Event>, ch: Chan) {
    && |ch.buffer| <= ch.capacity
    && joined <= |history|
    && received + ch.buffer <= history[joined..]
    && (!ch.closed ==> received + ch.buffer == history[joined..])
  }

  /** A broadcast keeps every channel in order, whether it takes the event, evicts, or was closed before; it evicts
      exactly the open channels that are full. */
  lemma OfferKeepsOrder(history: seq<Event>, joined: nat, received: seq<Event>, ch: Chan, evt: Event)
    requires InOrder(history, joined, received, ch)
    ensures InOrder(history + [evt], joined, received, Offer(ch, evt))
    ensures Offer(ch, evt).closed <==> ch.closed || |ch.buffer| == ch.capacity
    ensures Offer(ch, evt).capacity == ch.capacity
    ensures Offer(ch, evt).buffer == ch.buffer + (if !ch.closed && |ch.buffer| < ch.capacity then [evt] else [])
  {
    assert (history + [evt])[joined..] == history[joined..] + [evt];
    assert received + (ch.buffer + [evt]) == (received + ch.buffer) + [evt];
  }

  /** The runtime panics on a send to, or a second close of, a closed channel: both are preconditions here. */
  class Channel {
    const capacity: nat
    var buffer: seq<Event>
    var closed: bool
    ghost var received: seq<Event>  // taken out by the subscriber so far
    ghost const joined: nat         // broadcasts before the subscription
    ghost const id: nat             // the key it was registered under

    constructor (capacity: nat, ghost id: nat, ghost joined: nat)
      ensures this.capacity == capacity && this.joined == joined && this.id == id
      ensures buffer == [] && received == [] && !closed
    {
      this.capacity := capacity;
      this.joined := joined;
      this.id := id;
      buffer, received, closed := [], [], false;
    }

    ghost function State(): Chan
      reads this
    {
      Chan(capacity, buffer, closed)
    }

    method Send(evt: Event)
      requires !closed && |buffer| < capacity
      modifies this`buffer
      ensures State() == Offer(old(State()), evt)
    {
      buffer := buffer + [evt];
    }

    method Close()
      requires !closed
      modifies this`closed
      ensures closed
    {
      closed := true;
    }

    /** Buffered events can still be received after a close; None means drained. */
    method Receive() returns (evt: Option<Event>)
      modifies this`buffer, this`received
      ensures received + buffer == old(received + buffer)
      ensures evt == if old(buffer) == [] then None else Some(old(buffer)[0])
      ensures old(buffer) == [] ==> buffer == []
      ensures old(buffer) != [] ==> buffer == old(buffer)[1..]
    {
      if buffer == [] {
        return None;
      }
      evt := Some(buffer[0]);
      received := received + [buffer[0]];
      buffer := buffer[1..];
    }
  }

  /** Every broadcast so far, what each channel holds, and what each subscriber has received. */
  datatype Traffic =
    Traffic(history: seq<Event>, chans: map<Channel, Chan>, receipts: map<Channel, seq<Event>>)

  /** The traffic after a series of broadcasts: each channel is offered them all, and nothing is received meanwhile. */
  function Broadcasts(before: Traffic, events: seq<Event>): Traffic {
    before.(history := before.history + events,
            chans := map ch | ch in before.chans :: OfferAll(before.chans[ch], events))
  }

  lemma BroadcastsNone(before: Traffic)
    ensures Broadcasts(before, []) == before
  {
    assert before.history + [] == before.history;
  }

  lemma BroadcastsOne(before: Traffic, evt: Event)
    ensures Broadcasts(before, [evt]) ==
            before.(history := before.history + [evt],
                    chans := map ch | ch in before.chans :: Offer(before.chans[ch], evt))
  {
    assert [evt][..0] == [];
    assert forall ch :: ch in before.chans ==> OfferAll(before.chans[ch], [evt]) == Offer(before.chans[ch], evt);
  }

  lemma BroadcastsMore(before: Traffic, a: seq<Event>, b: seq<Event>)
    ensures Broadcasts(Broadcasts(before, a), b) == Broadcasts(before, a + b)
  {
    assert before.history + a + b == before.history + (a + b);
    forall ch | ch in before.chans
      ensures OfferAll(OfferAll(before.chans[ch], a), b) == OfferAll(before.chans[ch], a + b)
    {
      OfferAllConcat(before.chans[ch], a, b);
    }
  }

  class SSEHub {
    var nextId: nat
    var subscribers: map<nat, Channel>
    ghost var history: seq<Event>      // every broadcast
    ghost var channels: set<Channel>   // every channel ever handed out

    /** The open channels are exactly the registered ones, each under its own key. */
    ghost predicate Registered()
      reads this, channels
    {
      && (forall id :: id in subscribers ==>
          id < nextId && subscribers[id] in channels && subscribers[id].id == id && !subscribers[id].closed)
      && (forall ch :: ch in channels && !ch.closed ==> ch.id in subscribers && subscribers[ch.id] == ch)
    }

    /** Everything a broadcast can be seen in. */
    ghost function Seen(): Traffic
      reads this, channels
    {
      Traffic(history, map ch | ch in channels :: ch.State(), map ch | ch in channels :: ch.received)
    }

    ghost predicate Valid()
      reads this, channels
    {
      && Registered()
      && (forall ch :: ch in channels ==> InOrder(history, ch.joined, ch.received, ch.State()))
    }

    constructor ()
      ensures Valid() && channels == {} && history == [] && subscribers == map[]
    {
      nextId, subscribers, history, channels := 0, map[], [], {};
    }

    method Subscribe(capacity: nat) returns (ch: Channel, id: nat)
      requires Valid()
      modifies this
      ensures Valid()
      ensures fresh(ch) && ch.State() == Chan(capacity, [], false) && ch.joined == |history| && ch.id == id
      ensures channels == old(channels) + {ch} && history == old(history)
      ensures id !in old(subscribers) && subscribers == old(subscribers)[id := ch]
    {
      id := nextId;
      nextId := nextId + 1;
      ch := new Channel(capacity, id, |history|);
      subscribers := subscribers[id := ch];
      channels := channels + {ch};
    }

    /** Calling it again is harmless, and so is calling it after an eviction. */
    method Unsubscribe(id: nat)
      requires Valid()
      modifies this`subscribers, channels
      ensures Valid() && channels == old(channels) && history == old(history)
      ensures subscribers == old(subscribers) - {id}
      ensures forall ch :: ch in channels ==>
                ch.received == old(ch.received) && ch.buffer == old(ch.buffer) &&
                (ch.closed <==> old(ch.closed) || ch.id == id)
    {
      if id in subscribers {
        var ch := subscribers[id];
        subscribers := subscribers - {id};
        ch.Close();
      }
    }

    /** A subscriber takes its next event. */
    method Receive(ch: Channel) returns (evt: Option<Event>)
      requires Valid() && ch in channels
      modifies ch`buffer, ch`received
      ensures Valid()
      ensures ch.received + ch.buffer == old(ch.received + ch.buffer)
      ensures evt == if old(ch.buffer) == [] then None else Some(old(ch.buffer)[0])
      ensures ch.buffer == if old(ch.buffer) == [] then [] else old(ch.buffer)[1..]
    {
      evt := ch.Receive();
    }

    /** Send if there is room, evict if there is none. */
    method Deliver(id: nat, evt: Event)
      requires id in subscribers && !subscribers[id].closed
      modifies this`subscribers, subscribers[id]
      ensures old(subscribers)[id].State() == Offer(old(subscribers[id].State()), evt)
      ensures old(subscribers)[id].received == old(subscribers[id].received)
      ensures subscribers == if old(subscribers)[id].closed then old(subscribers) - {id} else old(subscribers)
    {
      var ch := subscribers[id];
      if |ch.buffer| < ch.capacity {
        ch.Send(evt);
      } else {
        ch.Close();
        subscribers := subscribers - {id};
      }
    }

    /** The loop of a broadcast: no registered channel is closed, so no send or close can panic. */
    method FanOut(evt: Event)
      requires Registered()
      modifies this`subscribers, channels
      ensures forall ch :: ch in channels ==>
                ch.State() == Offer(old(ch.State()), evt) && ch.received == old(ch.received)
      ensures forall id :: id in subscribers ==> id in old(subscribers) && subscribers[id] == old(subscribers)[id]
      ensures forall id :: id in old(subscribers) ==> (id in subscribers <==> !old(subscribers)[id].closed)
    {
      ghost var subs := subscribers;
      var pending := subscribers.Keys;
      while pending != {}
        invariant pending <= subscribers.Keys
        invariant forall id :: id in subscribers ==> id in subs && subscribers[id] == subs[id]
        invariant forall ch :: ch in channels ==> ch.received == old(ch.received)
        invariant forall ch :: ch in channels ==>
                    if ch.id in pending && subs[ch.id] == ch then ch.State() == old(ch.State())
                    else ch.State() == Offer(old(ch.State()), evt)
        invariant forall id :: id in subs ==> (id in subscribers <==> !subs[id].closed)
        decreases pending
      {
        var id :| id in pending;
        Deliver(id, evt);
        pending := pending - {id};
      }
    }

    twostate lemma SeenAfter(evt: Event)
      requires channels == old(channels) && history == old(history) + [evt]
      requires forall ch :: ch in channels ==>
                 ch.State() == Offer(old(ch.State()), evt) && ch.received == old(ch.received)
      ensures Seen() == Broadcasts(old(Seen()), [evt])
    {
      BroadcastsOne(old(Seen()), evt);
    }

    method Broadcast(evt: Event)
      requires Valid()
      modifies this`subscribers, this`history, channels
      ensures Valid() && channels == old(channels) && history == old(history) + [evt]
      ensures forall ch :: ch in channels ==>
                ch.State() == Offer(old(ch.State()), evt) && ch.received == old(ch.received)
      ensures Seen() == Broadcasts(old(Seen()), [evt])
      ensures subscribers.Keys <= old(subscribers).Keys
    {
      FanOut(evt);
      history := history + [evt];
      forall ch | ch in channels ensures InOrder(history, ch.joined, ch.received, ch.State()) {
        OfferKeepsOrder(old(history), ch.joined, ch.received, old(ch.State()), evt);
      }
      SeenAfter(evt);
    }
  }
}
