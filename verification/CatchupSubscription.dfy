/** The catch-up subscription object, over the chunked buffer. */
module CatchupSubscriptionModule {
  import opened Seqs
  import opened CatchupProtocol
  import opened CatchupTheorems
  import opened BufferQueueModule

  const CHUNK_SIZE: nat := 25

  class CatchupSubscription {
    const cfg: Config
    var current: int                  // current_event_number_
    var last: Option<int>             // last_event_number_
    var subscribed: bool
    var guard: bool                   // handle_guard_
    var registered: bool              // its handler is in the subscriptions map
    const eventBuffer: BufferQueue<int>
    var read: Read                    // the read request outstanding at the connection
    var posted: nat                   // drain tasks in the executor's queue
    var dropRequests: nat
    ghost var delivered: seq<int>

    ghost predicate Valid()
      reads this, eventBuffer, eventBuffer.Repr
    {
      eventBuffer.Valid() && this !in eventBuffer.Repr
    }

    ghost function View(): Client
      reads this, eventBuffer
    {
      Client(current, last, subscribed, guard, registered, eventBuffer.Contents, read, posted,
             dropRequests, delivered)
    }

    constructor (cfg: Config)
      ensures Valid() && fresh(eventBuffer.Repr) && this.cfg == cfg
      ensures StartRead(cfg, View()) == Init(cfg, 0).c
    {
      this.cfg := cfg;
      current, last, subscribed, guard, registered := cfg.from, None, false, false, false;
      read, posted, dropRequests, delivered := NoRead, 0, 0, [];
      eventBuffer := new BufferQueue(CHUNK_SIZE);
    }

    method AsyncStart()
      requires Valid()
      modifies this`read
      ensures Valid()
      ensures View() == StartRead(cfg, old(View()))
    {
      read := HistoryRead(current, cfg.batch);
    }

    /** Hand the events of a slice to the event handler, one after the other. */
    method DeliverAll(events: seq<int>)
      requires Valid()
      modifies this`current, this`delivered
      ensures Valid() && View() == Deliver(old(View()), events)
    {
      for i := 0 to |events|
        invariant Valid() && View() == Deliver(old(View()), events[..i])
      {
        EventAppeared(events[i]);
        assert events[..i + 1] == events[..i] + [events[i]];
        Assoc(old(delivered), events[..i], [events[i]]);
      }
      assert events[..|events|] == events;
    }

    method EventAppeared(event: int)
      modifies this`current, this`delivered
      ensures current == old(current) + 1 && delivered == old(delivered) + [event]
    {
      delivered := delivered + [event];
      current := current + 1;
    }

    method OnHistoryRead(events: seq<int>, endOfStream: bool)
      requires Valid() && read.HistoryRead?
      modifies this
      ensures Valid()
      ensures View() == OnHistory(cfg, old(View()), events, endOfStream)
    {
      read := NoRead;
      DeliverAll(events);
      if endOfStream {
        registered, guard := true, false;
      } else {
        AsyncStart();
      }
    }

    method CatchUpMissedEvents(count: int)
      requires Valid()
      modifies this`read
      ensures Valid() && View() == CatchUpMissed(old(View()), count)
    {
      read := MissedRead(current, ToInt32(count), count);
    }

    method OnMissedRead(events: seq<int>)
      requires Valid() && read.MissedRead?
      modifies this
      ensures Valid()
      ensures View() == OnMissed(old(View()), events)
    {
      var left := read.remaining - |events|;
      read := NoRead;
      DeliverAll(events);
      if left > 0 {
        CatchUpMissedEvents(left);
      } else {
        posted := posted + 1;
      }
    }

    method OnReadError()
      requires Valid()
      modifies this, eventBuffer.Repr
      ensures Valid() && eventBuffer.Repr == old(eventBuffer.Repr)
      ensures View() == OnReadFailed(old(View()))
    {
      read := NoRead;
      Drop();
    }

    /** `unsubscribe(ec, dropped)` of the base class, with this class's `shutdown`. */
    method Drop()
      requires Valid()
      modifies this, eventBuffer.Repr
      ensures Valid() && eventBuffer.Repr == old(eventBuffer.Repr)
      ensures View() == Stop(old(View()))
    {
      subscribed, guard, dropRequests := false, true, dropRequests + 1;
      eventBuffer.Clear();
    }

    method Confirmation(lastEventNumber: Option<int>)
      requires Valid()
      modifies this, eventBuffer.Repr
      ensures Valid() && eventBuffer.Repr == old(eventBuffer.Repr)
      ensures View() == OnConfirmation(old(View()), lastEventNumber)
    {
      if guard {
        return;
      }
      subscribed := true;
      match lastEventNumber {
        case Some(l) =>
          last := lastEventNumber;
          if l > current {
            CatchUpMissedEvents(l - current);
          }
        case None => Drop();
      }
    }

    /** A live event. Before any confirmation the read of `last_event_number()` throws, with the
        event already buffered. The buffer's element count fits `size_type`. */
    method StreamEvent(event: int) returns (threw: bool)
      requires Valid() && |eventBuffer.Contents| + 1 < 0x1_0000_0000_0000_0000
      modifies this, eventBuffer.Repr
      ensures Valid() && fresh(eventBuffer.Repr - old(eventBuffer.Repr))
      ensures threw <==> !old(guard) && old(last).None?
      ensures threw ==> View() == old(View()).(buffer := old(View()).buffer + [event])
      ensures old(last).Some? ==> View() == OnEvent(cfg, old(View()), event)
    {
      if guard {
        return false;
      }
      eventBuffer.PushBack(event);
      if last.None? {
        return true;
      }
      if last.value > current {
        return false;
      }
      var size := eventBuffer.Size();
      if size == 1 {
        ReadSubscriptionEvents();
      }
      return false;
    }

    method ReadSubscriptionEvents()
      requires Valid()
      modifies this, eventBuffer.Repr
      ensures Valid() && eventBuffer.Repr == old(eventBuffer.Repr)
      ensures View() == Drain(cfg, old(View()))
    {
      DeliverSlice();
      if !eventBuffer.Empty() {
        posted := posted + 1;
      }
    }

    method DeliverSlice()
      requires Valid()
      modifies this`current, this`delivered, eventBuffer.Repr
      ensures Valid() && eventBuffer.Repr == old(eventBuffer.Repr)
      ensures var c := old(View()); View() == After(c, Min(|c.buffer|, Max(0, cfg.maxLive)))
    {
      ghost var start := View();
      assert start == After(start, 0);
      var i := 0;
      while !eventBuffer.Empty() && i < cfg.maxLive
        invariant Valid() && eventBuffer.Repr == old(eventBuffer.Repr)
        invariant 0 <= i <= |start.buffer| && (i == 0 || i <= cfg.maxLive)
        invariant View() == After(start, i)
        decreases |start.buffer| - i
      {
        DeliverNext(start, i);
        i := i + 1;
      }
    }

    method DeliverNext(ghost start: Client, ghost i: nat)
      requires Valid() && eventBuffer.Contents != []
      requires i <= |start.buffer| && View() == After(start, i)
      modifies this`current, this`delivered, eventBuffer.Repr
      ensures Valid() && eventBuffer.Repr == old(eventBuffer.Repr)
      ensures i < |start.buffer| && View() == After(start, i + 1)
    {
      DeliverFront();
      AfterOneMore(start, i);
    }

    /** Deliver the first buffered event and drop it from the buffer. */
    method DeliverFront()
      requires Valid() && eventBuffer.Contents != []
      modifies this`current, this`delivered, eventBuffer.Repr
      ensures Valid() && eventBuffer.Repr == old(eventBuffer.Repr)
      ensures View() == After(old(View()), 1)
    {
      ghost var before := View();
      var event := eventBuffer.Front();
      EventAppeared(event);
      eventBuffer.PopFront();
      assert before.buffer[..1] == [event];
    }

    /** A posted drain task. */
    method RunPosted()
      requires Valid() && posted > 0
      modifies this, eventBuffer.Repr
      ensures Valid() && eventBuffer.Repr == old(eventBuffer.Repr)
      ensures View() == Drain(cfg, old(View()).(posted := old(posted) - 1))
    {
      posted := posted - 1;
      ReadSubscriptionEvents();
    }

    /** The handler in the subscriptions map, called with an error. */
    method HandleError()
      requires Valid()
      modifies this, eventBuffer.Repr
      ensures Valid() && eventBuffer.Repr == old(eventBuffer.Repr)
      ensures View() == if old(guard) then old(View()) else Stop(old(View()))
    {
      if !guard {
        Drop();
      }
    }

    /** What the client does in one step of the world around it. */
    method Perform(w: World, step: Step)
      requires Valid() && View() == w.c && Enabled(w, step)
      requires |w.c.buffer| + 1 < 0x1_0000_0000_0000_0000
      modifies this, eventBuffer.Repr
      ensures Valid() && fresh(eventBuffer.Repr - old(eventBuffer.Repr))
      ensures View() == Next(cfg, w, step).c
    {
      match step {
        case Append(_) =>
        case HistoryAnswer(n, endOfStream) => OnHistoryRead(Range(read.from, read.from + n), endOfStream);
        case MissedAnswer(n) => OnMissedRead(Range(read.from, read.from + n));
        case ReadFails => OnReadError();
        case Confirm(lastEventNumber) => Confirmation(lastEventNumber);
        case Live =>
          var threw := StreamEvent(last.value + 1 + w.live);
        case RunDrain => RunPosted();
        case Unsubscribe => HandleError();
      }
    }
  }

  lemma BufferGrows(cfg: Config, w: World, step: Step)
    requires Enabled(w, step)
    ensures |Next(cfg, w, step).c.buffer| <= |w.c.buffer| + 1
  {
  }

  /** Every run drives the object through the states of the protocol. So what it has delivered and
      buffered, once a confirmed subscription has read the missed events, is the history up to the
      larger of the counter and L, then the live events. */
  method Run(cfg: Config, log: nat, steps: seq<Step>) returns (subscription: CatchupSubscription, w: World)
    requires Legal(cfg, Init(cfg, log), steps) && |steps| + 1 < 0x1_0000_0000_0000_0000
    ensures w == Exec(cfg, Init(cfg, log), steps)
    ensures subscription.Valid() && subscription.View() == w.c
    ensures !w.c.guard && w.c.last.Some? && w.c.read == NoRead ==>
              subscription.delivered + subscription.eventBuffer.Contents
              == Range(cfg.from, Max(w.handover, w.c.last.value))
                 + Range(w.c.last.value + 1, w.c.last.value + 1 + w.live)
  {
    subscription := new CatchupSubscription(cfg);
    subscription.AsyncStart();
    w := Init(cfg, log);
    for i := 0 to |steps|
      invariant fresh(subscription) && fresh(subscription.eventBuffer.Repr) && subscription.cfg == cfg
      invariant subscription.Valid() && subscription.View() == w.c && |w.c.buffer| <= i
      invariant Legal(cfg, w, steps[i..])
      invariant Exec(cfg, w, steps[i..]) == Exec(cfg, Init(cfg, log), steps)
    {
      BufferGrows(cfg, w, steps[i]);
      subscription.Perform(w, steps[i]);
      assert steps[i..][1..] == steps[i + 1..];
      w := Next(cfg, w, steps[i]);
    }
    assert Reachable(cfg, w);
    if !w.c.guard && w.c.last.Some? && w.c.read == NoRead {
      HandOver(cfg, w);
    }
  }

  /** The client once the first `i` buffered events are delivered. */
  ghost function After(c: Client, i: nat): Client
    requires i <= |c.buffer|
  {
    Deliver(c, c.buffer[..i]).(buffer := c.buffer[i..])
  }

  lemma AfterOneMore(c: Client, i: nat)
    requires i < |c.buffer|
    ensures After(After(c, i), 1) == After(c, i + 1)
  {
  }
}
