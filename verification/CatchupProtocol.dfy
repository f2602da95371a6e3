/** The catch-up subscription as a state machine: what each of its handlers does to the client, and
    the server and executor steps they interleave with. Events are identified by their number; the
    server's stream is dense, event `n` being the one at index `n`. */
module CatchupProtocol {
  import opened Seqs

  /** `from` is the first event number wanted; `batch` and `maxLive` are the settings
      `read_batch_size` and `max_live_queue_size`. */
  datatype Config = Config(from: int, batch: int, maxLive: int)

  /** The read request outstanding. `remaining` is the count captured by the handler of a read of
      missed events; `maxCount` is what the request carries. */
  datatype Read =
    | NoRead
    | HistoryRead(from: int, maxCount: int)
    | MissedRead(from: int, maxCount: int, remaining: int)

  /** `current` is `current_event_number_`, the next number to deliver. `posted` counts the drain
      tasks in the executor's queue, `dropRequests` the calls of the base class's `unsubscribe`, and
      `delivered` is the history of calls of the event handler. */
  datatype Client = Client(
    current: int, last: Option<int>, subscribed: bool, guard: bool, registered: bool,
    buffer: seq<int>, read: Read, posted: nat, dropRequests: nat, delivered: seq<int>)

  // ---- what the handlers do ----

  function StartRead(cfg: Config, c: Client): Client {
    c.(read := HistoryRead(c.current, cfg.batch))
  }

  function Deliver(c: Client, events: seq<int>): Client {
    c.(current := c.current + |events|, delivered := c.delivered + events)
  }

  /** The base class's `unsubscribe`, as far as the derived class can see it. */
  function Stop(c: Client): Client {
    c.(subscribed := false, guard := true, buffer := [], dropRequests := c.dropRequests + 1)
  }

  function OnHistory(cfg: Config, c: Client, events: seq<int>, endOfStream: bool): Client {
    var d := Deliver(c, events).(read := NoRead);
    if endOfStream then d.(registered := true, guard := false) else StartRead(cfg, d)
  }

  function CatchUpMissed(c: Client, count: int): Client {
    c.(read := MissedRead(c.current, ToInt32(count), count))
  }

  function OnMissed(c: Client, events: seq<int>): Client
    requires c.read.MissedRead?
  {
    var d := Deliver(c, events).(read := NoRead);
    var left := c.read.remaining - |events|;
    if left > 0 then CatchUpMissed(d, left) else d.(posted := d.posted + 1)
  }

  function OnReadFailed(c: Client): Client { Stop(c.(read := NoRead)) }

  /** A subscription confirmation; `last` is its optional last event number. */
  function OnConfirmation(c: Client, last: Option<int>): Client {
    if c.guard then c
    else
      match last
      case None => Stop(c)
      case Some(l) =>
        var d := c.(subscribed := true, last := last);
        if l > c.current then CatchUpMissed(d, l - c.current) else d
  }

  /** `read_subscription_events`: deliver at most `maxLive` buffered events, and post another slice
      while any are left. */
  function Drain(cfg: Config, c: Client): Client {
    var m := Min(|c.buffer|, Max(0, cfg.maxLive));
    var d := Deliver(c, c.buffer[..m]).(buffer := c.buffer[m..]);
    if d.buffer != [] then d.(posted := d.posted + 1) else d
  }

  /** A live event, after a confirmation that named a last event number. */
  function OnEvent(cfg: Config, c: Client, event: int): Client
    requires c.last.Some?
  {
    if c.guard then c
    else
      var d := c.(buffer := c.buffer + [event]);
      if c.last.value > c.current then d
      else if |d.buffer| == 1 then Drain(cfg, d)
      else d
  }

  // ---- the world around the client ----

  /** `log` is the length of the stream and only grows; `start` was its length at first, and
      `askedAt` when the subscribe request went out. `handover` is the client's counter when the
      confirmation arrived, and `live` counts the live events received since. */
  datatype World = World(c: Client, start: nat, log: nat, askedAt: nat, handover: int, live: nat)

  function Init(cfg: Config, log: nat): World {
    World(StartRead(cfg, Client(cfg.from, None, false, false, false, [], NoRead, 0, 0, [])),
          log, log, 0, cfg.from, 0)
  }

  datatype Step =
    | Append(n: nat)                          // the stream grows
    | HistoryAnswer(n: nat, endOfStream: bool) // the outstanding read returns its next n events
    | MissedAnswer(n: nat)
    | ReadFails
    | Confirm(last: Option<int>)              // the subscription confirmation arrives
    | Live                                    // the next live event arrives
    | RunDrain                                // a posted drain task runs
    | Unsubscribe                             // by the user outside the event handler, or by the server

  /** A server answers a read of at most `maxCount` events with contiguous events from `from`, at
      least one when there is one. It cannot serve other requests. */
  predicate Served(log: nat, from: int, maxCount: int, n: nat) {
    && 0 <= from && 1 <= maxCount && n <= maxCount
    && (n > 0 ==> from + n <= log) && (from < log ==> n > 0)
  }

  /** The confirmation names the last event at some moment after the request, and live events follow
      it from there on, in order. */
  predicate Enabled(w: World, step: Step) {
    match step
    case Append(_) => true
    case HistoryAnswer(n, _) => w.c.read.HistoryRead? && Served(w.log, w.c.read.from, w.c.read.maxCount, n)
    case MissedAnswer(n) => w.c.read.MissedRead? && Served(w.log, w.c.read.from, w.c.read.maxCount, n)
    case ReadFails => w.c.read != NoRead
    case Confirm(last) =>
      w.c.registered && w.c.last.None? && (last.Some? ==> w.askedAt <= last.value + 1 <= w.log)
    case Live => w.c.last.Some? && w.c.last.value + 1 + w.live < w.log
    case RunDrain => w.c.posted > 0
    case Unsubscribe => w.c.registered
  }

  function Next(cfg: Config, w: World, step: Step): World
    requires Enabled(w, step)
  {
    var c := w.c;
    match step
    case Append(n) => w.(log := w.log + n)
    case HistoryAnswer(n, endOfStream) =>
      w.(c := OnHistory(cfg, c, Range(c.read.from, c.read.from + n), endOfStream), askedAt := w.log)
    case MissedAnswer(n) => w.(c := OnMissed(c, Range(c.read.from, c.read.from + n)))
    case ReadFails => w.(c := OnReadFailed(c))
    case Confirm(last) => w.(c := OnConfirmation(c, last), handover := c.current)
    case Live => w.(c := OnEvent(cfg, c, c.last.value + 1 + w.live), live := w.live + 1)
    case RunDrain => w.(c := Drain(cfg, c.(posted := c.posted - 1)))
    case Unsubscribe => if c.guard then w else w.(c := Stop(c))
  }

  predicate Legal(cfg: Config, w: World, steps: seq<Step>)
    decreases |steps|
  {
    steps == [] || (Enabled(w, steps[0]) && Legal(cfg, Next(cfg, w, steps[0]), steps[1..]))
  }

  function Exec(cfg: Config, w: World, steps: seq<Step>): World
    requires Legal(cfg, w, steps)
    decreases |steps|
  {
    if steps == [] then w else Exec(cfg, Next(cfg, w, steps[0]), steps[1..])
  }
}

/** What every interleaving keeps. */
module CatchupInvariant {
  import opened Seqs
  import opened CatchupProtocol

  /** Reading history: everything so far was delivered, nothing is buffered or posted. */
  ghost predicate ReadingHistory(cfg: Config, w: World) {
    var c := w.c;
    && c.read == HistoryRead(c.current, cfg.batch) && c.last == None
    && c.buffer == [] && c.posted == 0 && w.live == 0
    && c.delivered == Range(cfg.from, c.current)
    && (c.current <= w.log || c.current == cfg.from)
    && (cfg.from < 0 ==> c.current == cfg.from)
  }

  /** Waiting for the confirmation. */
  ghost predicate Subscribing(cfg: Config, w: World) {
    var c := w.c;
    && c.read == NoRead && c.last == None
    && c.buffer == [] && c.posted == 0 && w.live == 0
    && 0 <= cfg.from <= c.current && c.delivered == Range(cfg.from, c.current)
    && (c.current <= w.askedAt || c.current == cfg.from) && w.start <= w.askedAt
  }

  /** Reading the missed events up to, and not including, the confirmed last one, while the live
      ones pile up in the buffer. */
  ghost predicate ReadingMissed(cfg: Config, w: World)
    requires w.c.last.Some?
  {
    var c := w.c; var l := c.last.value;
    && c.read == MissedRead(c.current, ToInt32(l - c.current), l - c.current)
    && w.handover <= c.current < l && c.posted == 0
    && c.delivered == Range(cfg.from, c.current)
    && c.buffer == Range(l + 1, l + 1 + w.live)
  }

  /** Live: the history up to the hand-over, then the live events, some still buffered; a drain task
      is posted whenever some are. */
  ghost predicate FollowingLive(cfg: Config, w: World)
    requires w.c.last.Some?
  {
    var c := w.c; var l := c.last.value;
    && c.read == NoRead && l <= c.current
    && c.delivered + c.buffer == Range(cfg.from, Max(w.handover, l)) + Range(l + 1, l + 1 + w.live)
    && (c.buffer != [] ==> c.posted > 0)
    && (cfg.maxLive > 0 ==> c.posted <= 1)
  }

  ghost predicate Increasing(s: seq<int>) { forall i, j :: 0 <= i < j < |s| ==> s[i] < s[j] }

  /** Dropped: nothing is buffered, and a read of missed events still outstanding goes on where the
      events delivered so far end, up to the confirmed last one. */
  ghost predicate Stopped(cfg: Config, c: Client, handover: int) {
    && !c.read.HistoryRead? && c.buffer == [] && Increasing(c.delivered)
    && (c.last.Some? && handover <= c.last.value ==> c.last.value !in c.delivered)
    && (c.read.MissedRead? ==>
          && c.last.Some? && handover <= c.current < c.last.value
          && c.read == MissedRead(c.current, ToInt32(c.last.value - c.current), c.last.value - c.current)
          && c.delivered == Range(cfg.from, c.current))
  }

  ghost predicate Inv(cfg: Config, w: World) {
    var c := w.c;
    && c.current == cfg.from + |c.delivered|
    && w.start <= w.log && w.askedAt <= w.log
    && (c.guard ==> Stopped(cfg, c, w.handover))
    && (!c.guard ==>
          if !c.registered then ReadingHistory(cfg, w)
          else if c.last.None? then Subscribing(cfg, w)
          else
            && 0 <= cfg.from <= w.handover && c.last.value < w.log
            && (w.handover <= c.last.value + 1 || w.handover == cfg.from) && w.start <= c.last.value + 1
            && if c.read != NoRead then ReadingMissed(cfg, w) else FollowingLive(cfg, w))
  }

  lemma InvInit(cfg: Config, log: nat)
    ensures Inv(cfg, Init(cfg, log))
  {
  }

  lemma DeliverRange(cfg: Config, c: Client, n: nat)
    requires c.current == cfg.from + |c.delivered| && c.delivered == Range(cfg.from, c.current)
    ensures Deliver(c, Range(c.current, c.current + n)).delivered == Range(cfg.from, c.current + n)
  {
  }

  lemma DeliveredIncreasing(cfg: Config, w: World)
    requires Inv(cfg, w)
    ensures Increasing(w.c.delivered) && (!w.c.guard ==> Increasing(w.c.delivered + w.c.buffer))
    ensures w.c.last.Some? && w.handover <= w.c.last.value ==> w.c.last.value !in w.c.delivered + w.c.buffer
  {
    if !w.c.guard {
      var all := w.c.delivered + w.c.buffer;
      assert Increasing(all);
      assert w.c.delivered == all[..|w.c.delivered|];
    }
  }

  lemma RangeIncreasing(a: int, b: int, l: int)
    requires b <= l
    ensures Increasing(Range(a, b)) && l !in Range(a, b)
  {
  }

  /** An answer that arrives after the drop. */
  lemma LateAnswer(cfg: Config, c: Client, handover: int, n: nat)
    requires Stopped(cfg, c, handover) && c.current == cfg.from + |c.delivered|
    requires c.read.MissedRead? && n <= c.read.maxCount
    ensures var d := OnMissed(c, Range(c.current, c.current + n));
      Stopped(cfg, d, handover) && d.current == cfg.from + |d.delivered|
  {
    DeliverRange(cfg, c, n);
    RangeIncreasing(cfg.from, c.current + n, c.last.value);
  }

  lemma DrainNothing(cfg: Config, w: World)
    requires w.c.buffer == [] && w.c.posted > 0
    ensures Next(cfg, w, RunDrain) == WithoutTask(w)
  {
  }

  /** One drain task fewer in the queue. */
  function WithoutTask(w: World): World
    requires w.c.posted > 0
  {
    w.(c := w.c.(posted := w.c.posted - 1))
  }

  lemma WithoutTaskInv(cfg: Config, w: World)
    requires Inv(cfg, w) && w.c.guard && w.c.posted > 0
    ensures Inv(cfg, WithoutTask(w))
  {
  }

  /** A drain task that runs after the drop finds nothing. */
  lemma LateDrain(cfg: Config, w: World)
    requires Inv(cfg, w) && w.c.guard && Enabled(w, RunDrain)
    ensures Inv(cfg, Next(cfg, w, RunDrain))
  {
    WithoutTaskInv(cfg, w);
    DrainNothing(cfg, w);
  }

  lemma LateFailure(cfg: Config, c: Client, handover: int)
    requires Stopped(cfg, c, handover)
    ensures Stopped(cfg, OnReadFailed(c), handover)
  {
  }

  /** What still comes after a drop: an answer, drain tasks, and packages and stops the guard turns
      away. */
  lemma InvStopped(cfg: Config, w: World, step: Step)
    requires Inv(cfg, w) && w.c.guard && Enabled(w, step)
    ensures Inv(cfg, Next(cfg, w, step))
  {
    match step {
      case RunDrain => LateDrain(cfg, w);
      case MissedAnswer(n) => LateAnswer(cfg, w.c, w.handover, n);
      case ReadFails => LateFailure(cfg, w.c, w.handover);
      case _ =>
    }
  }

  /** Stopping, by the user, the server or a failed read. */
  lemma InvStop(cfg: Config, w: World, step: Step)
    requires Inv(cfg, w) && !w.c.guard && Enabled(w, step)
    requires step == Unsubscribe || step == ReadFails || step == Confirm(None)
    ensures Inv(cfg, Next(cfg, w, step))
  {
    DeliveredIncreasing(cfg, w);
  }

  lemma InvHistory(cfg: Config, w: World, step: Step)
    requires Inv(cfg, w) && !w.c.guard && Enabled(w, step) && step.HistoryAnswer?
    ensures Inv(cfg, Next(cfg, w, step))
  {
  }

  lemma InvMissed(cfg: Config, w: World, step: Step)
    requires Inv(cfg, w) && !w.c.guard && Enabled(w, step) && step.MissedAnswer?
    ensures Inv(cfg, Next(cfg, w, step))
  {
    DeliverRange(cfg, w.c, step.n);
  }

  lemma InvConfirm(cfg: Config, w: World, step: Step)
    requires Inv(cfg, w) && !w.c.guard && Enabled(w, step) && step.Confirm?
    ensures Inv(cfg, Next(cfg, w, step))
  {
    if step.last.None? {
      InvStop(cfg, w, step);
    } else {
      var l := step.last.value;
      assert Range(l + 1, l + 1) == [];
    }
  }

  lemma DrainKeeps(cfg: Config, c: Client)
    ensures var d := Drain(cfg, c);
      && d.delivered + d.buffer == c.delivered + c.buffer
      && d.current - |d.delivered| == c.current - |c.delivered|
  {
  }

  lemma InvDrain(cfg: Config, w: World)
    requires Inv(cfg, w) && !w.c.guard && Enabled(w, RunDrain)
    ensures Inv(cfg, Next(cfg, w, RunDrain))
  {
    DrainKeeps(cfg, w.c.(posted := w.c.posted - 1));
  }

  /** A live event with the gate open goes behind the buffered ones, and is drained at once when there
      are none. */
  lemma FollowOne(cfg: Config, c: Client, e: int)
    requires c.last.Some? && c.last.value <= c.current && !c.guard
    requires (c.buffer != [] ==> c.posted > 0) && (cfg.maxLive > 0 ==> c.posted <= 1)
    ensures var d := OnEvent(cfg, c, e);
      && d == c.(current := d.current, buffer := d.buffer, delivered := d.delivered, posted := d.posted)
      && d.delivered + d.buffer == c.delivered + c.buffer + [e]
      && d.current - |d.delivered| == c.current - |c.delivered| && c.current <= d.current
      && (d.buffer != [] ==> d.posted > 0) && (cfg.maxLive > 0 ==> d.posted <= 1)
  {
  }

  lemma InvLive(cfg: Config, w: World)
    requires Inv(cfg, w) && !w.c.guard && Enabled(w, Live)
    ensures Inv(cfg, Next(cfg, w, Live))
  {
    var c, l := w.c, w.c.last.value;
    var e := l + 1 + w.live;
    RangeSnoc(l + 1, e);
    if c.read == NoRead {
      FollowOne(cfg, c, e);
      Assoc(Range(cfg.from, Max(w.handover, l)), Range(l + 1, e), [e]);
    }
  }

  lemma InvStep(cfg: Config, w: World, step: Step)
    requires Inv(cfg, w) && Enabled(w, step)
    ensures Inv(cfg, Next(cfg, w, step))
  {
    if w.c.guard {
      InvStopped(cfg, w, step);
    } else {
      match step {
        case HistoryAnswer(_, _) => InvHistory(cfg, w, step);
        case MissedAnswer(_) => InvMissed(cfg, w, step);
        case Confirm(_) => InvConfirm(cfg, w, step);
        case Live => InvLive(cfg, w);
        case RunDrain => InvDrain(cfg, w);
        case Append(_) =>
        case _ => InvStop(cfg, w, step);
      }
    }
  }

  lemma {:induction false} InvExec(cfg: Config, w: World, steps: seq<Step>)
    requires Inv(cfg, w) && Legal(cfg, w, steps)
    ensures Inv(cfg, Exec(cfg, w, steps))
    decreases |steps|
  {
    if steps != [] {
      InvStep(cfg, w, steps[0]);
      InvExec(cfg, Next(cfg, w, steps[0]), steps[1..]);
    }
  }
}
