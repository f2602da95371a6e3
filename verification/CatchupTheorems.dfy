/** What a catch-up subscription delivers, over every run. */
module CatchupTheorems {
  import opened Seqs
  import opened CatchupProtocol
  import opened CatchupInvariant

  /** The states some run from a stream of some length reaches. */
  ghost predicate Reachable(cfg: Config, w: World) {
    exists log: nat, steps :: Legal(cfg, Init(cfg, log), steps) && Exec(cfg, Init(cfg, log), steps) == w
  }

  lemma ReachableInv(cfg: Config, w: World)
    requires Reachable(cfg, w)
    ensures Inv(cfg, w)
  {
    var log: nat, steps :| Legal(cfg, Init(cfg, log), steps) && Exec(cfg, Init(cfg, log), steps) == w;
    InvInit(cfg, log);
    InvExec(cfg, Init(cfg, log), steps);
  }

  // ---- what is delivered ----

  /** The hand-over. With L the confirmed last number and c the counter at confirmation, everything
      received is [from, max(c, L)) and then the live events from L + 1 on. While missed events are
      read, what is delivered, still to read and buffered makes that up, so no read passes L. */
  lemma HandOver(cfg: Config, w: World)
    requires Reachable(cfg, w) && !w.c.guard && w.c.last.Some?
    ensures var l := w.c.last.value; var events := Range(l + 1, l + 1 + w.live);
      if w.c.read == NoRead then
        w.c.delivered + w.c.buffer == Range(cfg.from, Max(w.handover, l)) + events
      else
        && w.c.read.MissedRead? && w.c.current + w.c.read.remaining == l
        && w.c.read.from + w.c.read.maxCount <= l
        && w.c.delivered + Range(w.c.current, l) == Range(cfg.from, Max(w.handover, l))
        && w.c.buffer == events
  {
    ReachableInv(cfg, w);
    if w.c.read != NoRead {
      RangeConcat(cfg.from, w.c.current, w.c.last.value);
    }
  }

  /** The counter always is the first number wanted plus the number of events delivered. */
  lemma CounterCountsDelivered(cfg: Config, w: World)
    requires Reachable(cfg, w)
    ensures w.c.current == cfg.from + |w.c.delivered|
  {
    ReachableInv(cfg, w);
  }

  /** No event is delivered twice or out of order, in any phase, dropped or not; nor will one be of
      those buffered. */
  lemma DeliveredInOrder(cfg: Config, w: World)
    requires Reachable(cfg, w)
    ensures Increasing(w.c.delivered) && Increasing(w.c.delivered + w.c.buffer)
  {
    ReachableInv(cfg, w);
    DeliveredIncreasing(cfg, w);
    if w.c.guard {
      assert w.c.delivered + [] == w.c.delivered;
    }
  }

  /** Exactly one event can be lost, the confirmed last one, and it is lost exactly when the client
      had not read it before the confirmation. */
  lemma LostEvent(cfg: Config, w: World, n: int)
    requires Reachable(cfg, w) && !w.c.guard && w.c.last.Some? && w.c.read == NoRead
    requires cfg.from <= n < w.c.last.value + 1 + w.live
    ensures n in w.c.delivered + w.c.buffer <==> n != w.c.last.value || w.c.last.value < w.handover
  {
    ReachableInv(cfg, w);
    var l := w.c.last.value;
    var before, events := Range(cfg.from, Max(w.handover, l)), Range(l + 1, l + 1 + w.live);
    assert w.c.delivered + w.c.buffer == before + events;
    if n < Max(w.handover, l) {
      assert (before + events)[n - cfg.from] == n;
    } else if n > l {
      assert (before + events)[|before| + (n - (l + 1))] == n;
    }
  }

  /** The counter at the confirmation is at most one past L, unless the client asked for events from
      a number the stream had not reached; starting within the stream it always is. */
  lemma CounterAtConfirmation(cfg: Config, w: World)
    requires Reachable(cfg, w) && !w.c.guard && w.c.last.Some?
    ensures cfg.from <= w.handover && (w.handover <= w.c.last.value + 1 || w.handover == cfg.from)
    ensures cfg.from <= w.start ==> w.handover <= w.c.last.value + 1
  {
    ReachableInv(cfg, w);
  }

  /** What arrived is everything from the first event wanted on, without a gap, exactly when the
      counter had already passed L at the confirmation; a client that asked for events beyond L + 1
      also receives the live ones before those. */
  lemma GapFree(cfg: Config, w: World)
    requires Reachable(cfg, w) && !w.c.guard && w.c.last.Some? && w.c.read == NoRead
    ensures w.c.delivered + w.c.buffer == Range(cfg.from, w.c.last.value + 1 + w.live)
            <==> w.c.last.value < w.handover && (cfg.from <= w.c.last.value + 1 || w.live == 0)
  {
    ReachableInv(cfg, w);
    var l := w.c.last.value;
    if l < w.handover && cfg.from <= l + 1 {
      RangeConcat(cfg.from, w.handover, w.handover + w.live);
    }
  }

  /** Once the confirmation finds L not read yet, event L is never delivered, whatever follows. */
  lemma NeverDelivered(cfg: Config, w: World, steps: seq<Step>)
    requires Reachable(cfg, w) && w.c.last.Some? && w.handover <= w.c.last.value
    requires Legal(cfg, w, steps)
    ensures w.c.last.value !in Exec(cfg, w, steps).c.delivered
  {
    ReachableInv(cfg, w);
    InvExec(cfg, w, steps);
    Settles(cfg, w, steps);
    DeliveredIncreasing(cfg, Exec(cfg, w, steps));
  }

  lemma {:induction false} Settles(cfg: Config, w: World, steps: seq<Step>)
    requires w.c.last.Some? && Legal(cfg, w, steps)
    ensures Exec(cfg, w, steps).c.last == w.c.last && Exec(cfg, w, steps).handover == w.handover
    decreases |steps|
  {
    if steps != [] {
      Settles(cfg, Next(cfg, w, steps[0]), steps[1..]);
    }
  }

  /** A stream whose first event is appended after the client read to its end and before it
      subscribed: the client never delivers that event. */
  lemma LossHappens()
    ensures var cfg := Config(0, 10, 500); var w := Init(cfg, 0);
      var steps := [HistoryAnswer(0, true), Append(1), Confirm(Some(0)), Append(1), Live];
      Legal(cfg, w, steps) && Exec(cfg, w, steps).c.delivered == [1]
  {
  }

  lemma Prepend(cfg: Config, w: World, step: Step, rest: seq<Step>)
    requires Enabled(w, step) && Legal(cfg, Next(cfg, w, step), rest)
    ensures Legal(cfg, w, [step] + rest)
    ensures Exec(cfg, w, [step] + rest) == Exec(cfg, Next(cfg, w, step), rest)
  {
  }

  // ---- when catch-up ends ----

  /** Some read of history was answered with the end of the stream. */
  ghost predicate EndSaid(steps: seq<Step>) {
    exists i :: 0 <= i < |steps| && steps[i].HistoryAnswer? && steps[i].endOfStream
  }

  lemma EndSaidFirst(steps: seq<Step>)
    requires steps != []
    ensures EndSaid(steps) <==> (steps[0].HistoryAnswer? && steps[0].endOfStream) || EndSaid(steps[1..])
  {
    if EndSaid(steps[1..]) {
      var i :| 0 <= i < |steps[1..]| && steps[1..][i].HistoryAnswer? && steps[1..][i].endOfStream;
      assert steps[i + 1].HistoryAnswer? && steps[i + 1].endOfStream;
    }
    if i :| 0 < i < |steps| && steps[i].HistoryAnswer? && steps[i].endOfStream {
      assert steps[1..][i - 1].HistoryAnswer? && steps[1..][i - 1].endOfStream;
    }
  }

  lemma {:induction false} RegisteredFrom(cfg: Config, w: World, steps: seq<Step>)
    requires Legal(cfg, w, steps)
    ensures Exec(cfg, w, steps).c.registered <==> w.c.registered || EndSaid(steps)
    decreases |steps|
  {
    if steps != [] {
      EndSaidFirst(steps);
      RegisteredFrom(cfg, Next(cfg, w, steps[0]), steps[1..]);
    }
  }

  /** The client subscribes if and only if the server has said that the stream ends; until then it is
      reading on at its counter, in full batches, or was dropped; after that it reads no more history. */
  lemma SubscribesAtEnd(cfg: Config, log: nat, steps: seq<Step>)
    requires Legal(cfg, Init(cfg, log), steps)
    ensures var c := Exec(cfg, Init(cfg, log), steps).c;
      && (c.registered <==> EndSaid(steps))
      && (!c.registered ==> c.guard || c.read == HistoryRead(c.current, cfg.batch))
      && (c.registered ==> !c.read.HistoryRead?)
  {
    RegisteredFrom(cfg, Init(cfg, log), steps);
    InvInit(cfg, log);
    InvExec(cfg, Init(cfg, log), steps);
  }

  /** An answer to a read of history is delivered whole, and followed by the next read, or at the end
      of the stream by the subscription. */
  lemma HistoryGoesOn(cfg: Config, w: World, n: nat, endOfStream: bool)
    requires Reachable(cfg, w) && Enabled(w, HistoryAnswer(n, endOfStream))
    ensures var c, d := w.c, Next(cfg, w, HistoryAnswer(n, endOfStream)).c;
      && d.delivered == c.delivered + Range(c.current, c.current + n)
      && d.current == c.current + n && d.registered == endOfStream && !d.guard
      && d.read == if endOfStream then NoRead else HistoryRead(c.current + n, cfg.batch)
  {
    ReachableInv(cfg, w);
  }

  /** A server that says the stream ends only with its last event. */
  ghost predicate Honest(cfg: Config, w: World, steps: seq<Step>)
    requires Legal(cfg, w, steps)
    decreases |steps|
  {
    steps == [] ||
    ((steps[0].HistoryAnswer? && steps[0].endOfStream ==> w.c.read.from + steps[0].n == w.log)
     && Honest(cfg, Next(cfg, w, steps[0]), steps[1..]))
  }

  /** The counter stays within the stream, and is its length when the subscribe request goes out. */
  ghost predicate ReadUpTo(w: World) {
    !w.c.guard ==>
      if !w.c.registered then w.c.current <= w.log
      else if w.c.last.None? then w.c.current == w.askedAt
      else w.handover == w.askedAt <= w.c.last.value + 1
  }

  lemma ReadUpToStep(cfg: Config, w: World, step: Step)
    requires Inv(cfg, w) && ReadUpTo(w) && Enabled(w, step)
    requires step.HistoryAnswer? && step.endOfStream ==> w.c.read.from + step.n == w.log
    ensures ReadUpTo(Next(cfg, w, step))
  {
  }

  lemma {:induction false} ReadUpToRun(cfg: Config, w: World, steps: seq<Step>)
    requires Inv(cfg, w) && ReadUpTo(w) && Legal(cfg, w, steps) && Honest(cfg, w, steps)
    ensures ReadUpTo(Exec(cfg, w, steps))
    decreases |steps|
  {
    if steps != [] {
      InvStep(cfg, w, steps[0]);
      ReadUpToStep(cfg, w, steps[0]);
      ReadUpToRun(cfg, Next(cfg, w, steps[0]), steps[1..]);
    }
  }

  /** Against an honest server, a client that starts within the stream loses nothing if and only if
      nothing was appended between its end-of-stream answer and the moment the confirmation names. Then
      it has missed nothing to read, and what it received is the whole stream from its start on. */
  lemma CompleteIff(cfg: Config, log: nat, steps: seq<Step>)
    requires Legal(cfg, Init(cfg, log), steps) && Honest(cfg, Init(cfg, log), steps) && cfg.from <= log
    requires var w := Exec(cfg, Init(cfg, log), steps); !w.c.guard && w.c.last.Some?
    ensures var w := Exec(cfg, Init(cfg, log), steps); var l := w.c.last.value;
      && (l < w.handover <==> l + 1 == w.askedAt)
      && (w.c.read == NoRead && w.c.delivered + w.c.buffer == Range(cfg.from, l + 1 + w.live)
          <==> l + 1 == w.askedAt)
  {
    var start := Init(cfg, log);
    var w := Exec(cfg, start, steps);
    InvInit(cfg, log);
    InvExec(cfg, start, steps);
    ReadUpToRun(cfg, start, steps);
    assert Reachable(cfg, w);
    if w.c.read == NoRead {
      GapFree(cfg, w);
    }
  }

  /** A confirmation is taken over: the client counts as subscribed from its event number on, and reads
      the missed events if and only if that number is ahead of its counter. Without a number it drops. */
  lemma ConfirmationTaken(cfg: Config, w: World, last: Option<int>)
    requires Reachable(cfg, w) && !w.c.guard && Enabled(w, Confirm(last))
    ensures var v := Next(cfg, w, Confirm(last));
      && v.handover == w.c.current && v.c.delivered == w.c.delivered && v.c.buffer == []
      && v.c.last == last && v.c.subscribed == last.Some? && v.c.guard == last.None?
      && v.c.dropRequests == w.c.dropRequests + (if last.None? then 1 else 0)
      && (v.c.read != NoRead <==> last.Some? && last.value > w.c.current)
  {
    ReachableInv(cfg, w);
  }

  ghost predicate SubscribedRightly(c: Client) { c.subscribed <==> c.last.Some? && !c.guard }

  lemma SubscribedStep(cfg: Config, w: World, step: Step)
    requires Inv(cfg, w) && SubscribedRightly(w.c) && Enabled(w, step)
    ensures SubscribedRightly(Next(cfg, w, step).c)
  {
  }

  /** A client counts as subscribed exactly from a confirmation with an event number to its drop. */
  lemma {:induction false} SubscribedFrom(cfg: Config, w: World, steps: seq<Step>)
    requires Inv(cfg, w) && SubscribedRightly(w.c) && Legal(cfg, w, steps)
    ensures SubscribedRightly(Exec(cfg, w, steps).c)
    decreases |steps|
  {
    if steps != [] {
      SubscribedStep(cfg, w, steps[0]);
      InvStep(cfg, w, steps[0]);
      SubscribedFrom(cfg, Next(cfg, w, steps[0]), steps[1..]);
    }
  }

  // ---- reads and drains ----

  /** A request is only ever sent when none is outstanding. */
  lemma OneRead(cfg: Config, w: World, step: Step)
    requires Reachable(cfg, w) && Enabled(w, step)
    requires !step.HistoryAnswer? && !step.MissedAnswer? && !step.ReadFails?
    ensures w.c.read != NoRead ==> Next(cfg, w, step).c.read == w.c.read
  {
    ReachableInv(cfg, w);
  }

  ghost predicate GateOpen(w: World) { w.c.last.Some? && w.c.last.value <= w.c.current }

  /** No live event is stranded: with the gate open, buffered events have a drain task coming. */
  lemma NotStranded(cfg: Config, w: World)
    requires Reachable(cfg, w) && !w.c.guard && GateOpen(w) && w.c.buffer != []
    ensures Enabled(w, RunDrain)
    ensures cfg.maxLive > 0 ==> w.c.posted == 1
  {
    ReachableInv(cfg, w);
  }

  /** Once open the gate stays open. */
  lemma GateStaysOpen(cfg: Config, w: World, step: Step)
    requires Reachable(cfg, w) && GateOpen(w) && Enabled(w, step)
    ensures GateOpen(Next(cfg, w, step))
  {
  }

  /** How many times `size` fits into `n`, counting a rest as once more. */
  function Slices(n: int, size: int): nat
    requires size > 0
    decreases Max(0, n)
  {
    if n <= 0 then 0 else 1 + Slices(n - size, size)
  }

  lemma {:induction false} SlicesIsCeiling(n: nat, size: int)
    requires size > 0
    ensures (Slices(n, size) - 1) * size < n || n == 0
    ensures n <= Slices(n, size) * size
    decreases n
  {
    if n > size {
      var k := Slices(n - size, size);
      SlicesIsCeiling(n - size, size);
      assert k * size == (k - 1) * size + size && (k + 1) * size == k * size + size;
    } else if n > 0 {
      assert Slices(n - size, size) == 0;
    }
  }

  function Drains(k: nat): seq<Step> {
    if k == 0 then [] else [RunDrain] + Drains(k - 1)
  }

  /** With no new arrivals, n buffered events are delivered by exactly ceil(n / maxLive) drain tasks,
      in arrival order, and then no drain task is left. */
  lemma {:induction false} DrainsEmpty(cfg: Config, w: World)
    requires cfg.maxLive > 0 && w.c.buffer != [] && w.c.posted == 1
    ensures var run := Drains(Slices(|w.c.buffer|, cfg.maxLive));
      && Legal(cfg, w, run)
      && Exec(cfg, w, run).c == w.c.(current := w.c.current + |w.c.buffer|, buffer := [], posted := 0,
                                     delivered := w.c.delivered + w.c.buffer)
    decreases |w.c.buffer|
  {
    var k := Slices(|w.c.buffer|, cfg.maxLive);
    var v := Next(cfg, w, RunDrain);
    DrainKeeps(cfg, w.c.(posted := 0));
    if |w.c.buffer| > cfg.maxLive {
      DrainsEmpty(cfg, v);
    } else {
      assert v.c.delivered + [] == v.c.delivered;
    }
    Prepend(cfg, w, RunDrain, Drains(k - 1));
  }

  /** The drain tasks to come while no further event arrives: a posted one runs even if it finds nothing. */
  ghost function DrainsLeft(cfg: Config, c: Client): nat
    requires cfg.maxLive > 0
  {
    if c.posted == 0 then 0 else Max(1, Slices(|c.buffer|, cfg.maxLive))
  }

  ghost predicate NoArrivals(steps: seq<Step>) { forall i :: 0 <= i < |steps| ==> !steps[i].Live? }

  /** Read all missed events, and neither dropped nor waiting. */
  ghost predicate Following(w: World) { !w.c.guard && w.c.last.Some? && w.c.read == NoRead }

  lemma DrainStep(cfg: Config, w: World, step: Step)
    requires cfg.maxLive > 0 && Inv(cfg, w) && Following(w) && Enabled(w, step) && !step.Live?
    ensures var v := Next(cfg, w, step); !v.c.guard ==>
      && Following(v)
      && DrainsLeft(cfg, w.c) == DrainsLeft(cfg, v.c) + (if step.RunDrain? then 1 else 0)
      && v.c.delivered + v.c.buffer == w.c.delivered + w.c.buffer
  {
    if step.RunDrain? {
      DrainKeeps(cfg, w.c.(posted := w.c.posted - 1));
      var n := |w.c.buffer|;
      assert n <= cfg.maxLive ==> Slices(n - cfg.maxLive, cfg.maxLive) == 0;
      assert n > cfg.maxLive ==> |Next(cfg, w, step).c.buffer| == n - cfg.maxLive;
    }
  }

  function DrainCount(steps: seq<Step>): nat {
    if steps == [] then 0 else (if steps[0].RunDrain? then 1 else 0) + DrainCount(steps[1..])
  }

  /** In every undropped run without arrivals, whatever else is interleaved, each drain task brings the
      end one nearer, and what is delivered and buffered stays the same sequence. */
  lemma {:induction false} DrainsCounted(cfg: Config, w: World, steps: seq<Step>)
    requires cfg.maxLive > 0 && Inv(cfg, w) && Following(w) && Legal(cfg, w, steps) && NoArrivals(steps)
    requires !Exec(cfg, w, steps).c.guard
    ensures var v := Exec(cfg, w, steps);
      && Following(v)
      && DrainsLeft(cfg, w.c) == DrainsLeft(cfg, v.c) + DrainCount(steps)
      && v.c.delivered + v.c.buffer == w.c.delivered + w.c.buffer
    decreases |steps|
  {
    if steps != [] {
      var v := Next(cfg, w, steps[0]);
      DrainStep(cfg, w, steps[0]);
      InvStep(cfg, w, steps[0]);
      if v.c.guard {
        GuardStaysAll(cfg, v, steps[1..]);
      } else {
        DrainsCounted(cfg, v, steps[1..]);
      }
    }
  }

  /** With no read outstanding and no drain task posted, everything has been delivered: the history up
      to the larger of the counter and L, then all live events received. */
  lemma Quiescent(cfg: Config, w: World)
    requires Reachable(cfg, w) && Following(w) && w.c.posted == 0
    ensures w.c.buffer == []
    ensures w.c.delivered
         == Range(cfg.from, Max(w.handover, w.c.last.value))
            + Range(w.c.last.value + 1, w.c.last.value + 1 + w.live)
  {
    ReachableInv(cfg, w);
    assert w.c.delivered + [] == w.c.delivered;
  }

  // ---- termination ----

  function Count(steps: seq<Step>, history: bool): nat {
    if steps == [] then 0
    else
      (if (if history then steps[0].HistoryAnswer? else steps[0].MissedAnswer?) then 1 else 0)
      + Count(steps[1..], history)
  }

  /** The stream has stopped growing and the server says so when a read finds nothing. */
  ghost predicate Settled(steps: seq<Step>) {
    forall i :: 0 <= i < |steps| ==>
      !steps[i].Append? && (steps[i].HistoryAnswer? && steps[i].n == 0 ==> steps[i].endOfStream)
  }

  /** A bound on the history reads to come. */
  ghost function HistoryLeft(w: World): nat {
    if w.c.read.HistoryRead? then Max(0, w.log - w.c.current) + 1 else 0
  }

  lemma HistoryStep(cfg: Config, w: World, step: Step)
    requires Inv(cfg, w) && Enabled(w, step) && !step.Append?
    requires step.HistoryAnswer? && step.n == 0 ==> step.endOfStream
    ensures HistoryLeft(Next(cfg, w, step)) + (if step.HistoryAnswer? then 1 else 0) <= HistoryLeft(w)
  {
  }

  /** Each history read brings the subscription closer. */
  lemma {:induction false} HistoryEnds(cfg: Config, w: World, steps: seq<Step>)
    requires Inv(cfg, w) && Legal(cfg, w, steps) && Settled(steps)
    ensures Count(steps, true) + HistoryLeft(Exec(cfg, w, steps)) <= HistoryLeft(w)
    decreases |steps|
  {
    if steps != [] {
      var v := Next(cfg, w, steps[0]);
      InvStep(cfg, w, steps[0]);
      HistoryStep(cfg, w, steps[0]);
      HistoryEnds(cfg, v, steps[1..]);
    }
  }

  /** A server that fills its batches: every history read returns `batch` events, or all there are. */
  ghost predicate FullBatches(cfg: Config, w: World, steps: seq<Step>)
    requires Legal(cfg, w, steps)
    decreases |steps|
  {
    steps == [] ||
    ((steps[0].HistoryAnswer? ==> steps[0].n == Min(cfg.batch, Max(0, w.log - w.c.current)))
     && FullBatches(cfg, Next(cfg, w, steps[0]), steps[1..]))
  }

  ghost function BatchesLeft(cfg: Config, w: World): nat
    requires cfg.batch > 0
  {
    if w.c.read.HistoryRead? then Slices(w.log - w.c.current, cfg.batch) + 1 else 0
  }

  lemma BatchStep(cfg: Config, w: World, step: Step)
    requires cfg.batch > 0 && Inv(cfg, w) && Enabled(w, step) && !step.Append?
    requires step.HistoryAnswer? && step.n == 0 ==> step.endOfStream
    requires step.HistoryAnswer? ==> step.n == Min(cfg.batch, Max(0, w.log - w.c.current))
    ensures BatchesLeft(cfg, Next(cfg, w, step)) + (if step.HistoryAnswer? then 1 else 0) <= BatchesLeft(cfg, w)
  {
  }

  /** With full batches it takes at most ceil((n - from) / batch) + 1 reads. */
  lemma {:induction false} HistoryEndsInBatches(cfg: Config, w: World, steps: seq<Step>)
    requires cfg.batch > 0 && Inv(cfg, w) && Legal(cfg, w, steps) && Settled(steps)
    requires FullBatches(cfg, w, steps)
    ensures Count(steps, true) + BatchesLeft(cfg, Exec(cfg, w, steps)) <= BatchesLeft(cfg, w)
    decreases |steps|
  {
    if steps != [] {
      var v := Next(cfg, w, steps[0]);
      InvStep(cfg, w, steps[0]);
      BatchStep(cfg, w, steps[0]);
      HistoryEndsInBatches(cfg, v, steps[1..]);
    }
  }

  ghost function MissedLeft(w: World): nat
    requires w.c.last.Some?
  {
    Max(0, w.c.last.value - w.c.current)
  }

  lemma GuardStays(cfg: Config, w: World, step: Step)
    requires Inv(cfg, w) && Enabled(w, step) && w.c.guard
    ensures Next(cfg, w, step).c.guard
  {
  }

  lemma {:induction false} GuardStaysAll(cfg: Config, w: World, steps: seq<Step>)
    requires Inv(cfg, w) && Legal(cfg, w, steps) && w.c.guard
    ensures Exec(cfg, w, steps).c.guard
    decreases |steps|
  {
    if steps != [] {
      GuardStays(cfg, w, steps[0]);
      InvStep(cfg, w, steps[0]);
      GuardStaysAll(cfg, Next(cfg, w, steps[0]), steps[1..]);
    }
  }

  lemma MissedStep(cfg: Config, w: World, step: Step)
    requires Inv(cfg, w) && w.c.last.Some? && !w.c.guard && Enabled(w, step)
    ensures Next(cfg, w, step).c.last == w.c.last && Next(cfg, w, step).handover == w.handover
    ensures MissedLeft(Next(cfg, w, step)) + (if step.MissedAnswer? then 1 else 0) <= MissedLeft(w)
  {
  }

  /** From the confirmation on, each read of missed events brings the end of them closer. */
  lemma {:induction false} MissedEnds(cfg: Config, w: World, steps: seq<Step>)
    requires Inv(cfg, w) && w.c.last.Some? && Legal(cfg, w, steps) && !Exec(cfg, w, steps).c.guard
    ensures Exec(cfg, w, steps).c.last == w.c.last && Exec(cfg, w, steps).handover == w.handover
    ensures Count(steps, false) + MissedLeft(Exec(cfg, w, steps)) <= MissedLeft(w)
    decreases |steps|
  {
    if w.c.guard {
      GuardStaysAll(cfg, w, steps);
    } else if steps != [] {
      var v := Next(cfg, w, steps[0]);
      InvStep(cfg, w, steps[0]);
      MissedStep(cfg, w, steps[0]);
      MissedEnds(cfg, v, steps[1..]);
    }
  }

  /** Over a whole undropped run the missed events take at most L - c reads, however fast the stream
      grows meanwhile. */
  lemma {:induction false} MissedReads(cfg: Config, w: World, steps: seq<Step>)
    requires Inv(cfg, w) && w.c.last.None? && Legal(cfg, w, steps)
    requires !Exec(cfg, w, steps).c.guard && Exec(cfg, w, steps).c.last.Some?
    ensures var v := Exec(cfg, w, steps);
      Count(steps, false) <= Max(0, v.c.last.value - v.handover)
    decreases |steps|
  {
    if w.c.guard {
      GuardStaysAll(cfg, w, steps);
    } else {
      var v := Next(cfg, w, steps[0]);
      InvStep(cfg, w, steps[0]);
      if v.c.last.Some? {
        MissedEnds(cfg, v, steps[1..]);
      } else {
        MissedReads(cfg, v, steps[1..]);
      }
    }
  }

  /** Against a stream that stopped growing at length n, initial catch-up from `from` takes at most
      max(0, n - from) + 1 reads, and at most ceil((n - from) / batch) + 1 full ones. */
  lemma HistoryReads(cfg: Config, log: nat, steps: seq<Step>)
    requires Legal(cfg, Init(cfg, log), steps) && Settled(steps)
    ensures Count(steps, true) <= Max(0, log - cfg.from) + 1
    ensures cfg.batch > 0 && FullBatches(cfg, Init(cfg, log), steps) ==>
              Count(steps, true) <= Slices(log - cfg.from, cfg.batch) + 1
    ensures Exec(cfg, Init(cfg, log), steps).c.read.HistoryRead? ==>
              Count(steps, true) <= Max(0, log - cfg.from)
  {
    InvInit(cfg, log);
    HistoryEnds(cfg, Init(cfg, log), steps);
    if cfg.batch > 0 && FullBatches(cfg, Init(cfg, log), steps) {
      HistoryEndsInBatches(cfg, Init(cfg, log), steps);
    }
  }

  // ---- stopping ----

  /** Whatever happens next, no further event is delivered. */
  ghost predicate Silent(cfg: Config, w: World) {
    forall steps :: Legal(cfg, w, steps) ==> Exec(cfg, w, steps).c.delivered == w.c.delivered
  }

  /** Stopped, with nothing buffered and no read outstanding that a server would answer. */
  ghost predicate Dead(c: Client) {
    && c.guard && c.buffer == []
    && (c.read == NoRead || (c.read.MissedRead? && c.read.maxCount < 1))
  }

  lemma {:induction false} DeadIsSilent(cfg: Config, w: World, steps: seq<Step>)
    requires Dead(w.c) && Legal(cfg, w, steps)
    ensures Exec(cfg, w, steps).c.delivered == w.c.delivered
    decreases |steps|
  {
    if steps != [] {
      var v := Next(cfg, w, steps[0]);
      assert v.c.delivered + [] == v.c.delivered;
      assert Dead(v.c) && v.c.delivered == w.c.delivered;
      DeadIsSilent(cfg, v, steps[1..]);
    }
  }

  /** Stopping outside the event handler is final exactly when no read of missed events is
      outstanding: pending drain tasks and late packages deliver nothing, an answered read does. */
  lemma CleanStop(cfg: Config, w: World)
    requires Reachable(cfg, w) && Enabled(w, Unsubscribe) && !w.c.guard
    ensures Silent(cfg, Next(cfg, w, Unsubscribe)) <==> w.c.read == NoRead || w.c.read.maxCount < 1
  {
    ReachableInv(cfg, w);
    var v := Next(cfg, w, Unsubscribe);
    if w.c.read == NoRead || w.c.read.maxCount < 1 {
      forall steps | Legal(cfg, v, steps)
        ensures Exec(cfg, v, steps).c.delivered == v.c.delivered
      {
        DeadIsSilent(cfg, v, steps);
      }
    } else {
      var answer := [MissedAnswer(1)];
      assert Enabled(v, answer[0]) && answer[1..] == [];
      assert Legal(cfg, v, answer);
      assert |Exec(cfg, v, answer).c.delivered| == |v.c.delivered| + 1;
    }
  }

  /** It does deliver: a client stopped while it reads the missed events gets them all the same. */
  lemma StoppedDelivers()
    ensures var cfg := Config(0, 10, 500); var w := Init(cfg, 0);
      var steps := [HistoryAnswer(0, true), Append(3), Confirm(Some(2)), Unsubscribe, MissedAnswer(1)];
      && Legal(cfg, w, steps)
      && Exec(cfg, w, steps).c.delivered == [0] && Exec(cfg, w, steps).c.guard
  {
  }

  // ---- dropping ----

  /** What was asked of the base class: nothing before the guard locks, then one drop, or two. A read
      still outstanding after the first is what can ask for the second. */
  ghost predicate DropsAsked(c: Client) {
    if !c.guard then c.dropRequests == 0
    else c.dropRequests == 1 || (c.dropRequests == 2 && c.read == NoRead)
  }

  lemma DropsAskedStep(cfg: Config, w: World, step: Step)
    requires Inv(cfg, w) && DropsAsked(w.c) && Enabled(w, step)
    ensures DropsAsked(Next(cfg, w, step).c)
    ensures w.c.guard ==>
              (Next(cfg, w, step).c.dropRequests == 2 && w.c.dropRequests == 1 <==> step == ReadFails)
    ensures w.c.guard && step != ReadFails ==> Next(cfg, w, step).c.dropRequests == w.c.dropRequests
  {
  }

  /** Whether a read fails after the guard has locked. */
  ghost predicate FailsLate(cfg: Config, w: World, steps: seq<Step>)
    requires Legal(cfg, w, steps)
    decreases |steps|
  {
    steps != [] && ((w.c.guard && steps[0] == ReadFails) || FailsLate(cfg, Next(cfg, w, steps[0]), steps[1..]))
  }

  lemma {:induction false} DropsAskedRun(cfg: Config, w: World, steps: seq<Step>)
    requires Inv(cfg, w) && DropsAsked(w.c) && Legal(cfg, w, steps)
    ensures DropsAsked(Exec(cfg, w, steps).c)
    ensures Exec(cfg, w, steps).c.dropRequests == 2 <==> w.c.dropRequests == 2 || FailsLate(cfg, w, steps)
    decreases |steps|
  {
    if steps != [] {
      InvStep(cfg, w, steps[0]);
      DropsAskedStep(cfg, w, steps[0]);
      DropsAskedRun(cfg, Next(cfg, w, steps[0]), steps[1..]);
    }
  }

  /** Over every run the base class is asked to drop at most twice, not at all before the guard locks,
      and twice if and only if a read of missed events fails after that. */
  lemma DropsTwiceIff(cfg: Config, log: nat, steps: seq<Step>)
    requires Legal(cfg, Init(cfg, log), steps)
    ensures var c := Exec(cfg, Init(cfg, log), steps).c;
      && c.dropRequests <= 2 && (c.dropRequests == 0 <==> !c.guard)
      && (c.dropRequests == 2 <==> FailsLate(cfg, Init(cfg, log), steps))
  {
    InvInit(cfg, log);
    DropsAskedRun(cfg, Init(cfg, log), steps);
  }

  /** It does happen: a client stopped by the user drops a second time when its read of missed events
      fails. */
  lemma DropsTwice()
    ensures var cfg := Config(0, 10, 500); var w := Init(cfg, 0);
      var steps := [HistoryAnswer(0, true), Append(3), Confirm(Some(2)), Unsubscribe, ReadFails];
      Legal(cfg, w, steps) && Exec(cfg, w, steps).c.dropRequests == 2
  {
  }
}
