/** Sending: packages are posted to the executor, queued, and written one at a time. */
module SendQueueSpec {
  import opened Seqs
  import opened TcpPackage
  import opened Framing

  /** `sent` and `wire` are histories: the frames handed to `async_send` and the bytes the socket
      took; `started` and `finished` count the writes begun and completed. `written` counts the bytes
      of the queue's front already taken. */
  datatype State = State(
    sent: seq<seq<Byte>>, posted: seq<seq<Byte>>, queue: seq<seq<Byte>>,
    writing: bool, written: nat, failed: bool, wire: seq<Byte>, started: nat, finished: nat)

  const INITIAL := State([], [], [], false, 0, false, [], 0, 0)

  /** Begin the write of the queue's front. */
  function StartWrite(s: State): State { s.(writing := true, written := 0, started := s.started + 1) }

  /** `Send` is a call of `async_send`; the others are what the executor and the socket do. */
  datatype Step = Send(frame: seq<Byte>) | RunPosted | WriteSome(n: nat) | WriteDone | WriteFails

  predicate Enabled(s: State, step: Step) {
    match step
    case Send(_) => true
    case RunPosted => s.posted != []
    case WriteSome(n) => s.writing && s.queue != [] && s.written + n <= |s.queue[0]|
    case WriteDone => s.writing && s.queue != [] && s.written == |s.queue[0]|
    case WriteFails => s.writing
  }

  function Next(s: State, step: Step): State
    requires Enabled(s, step)
  {
    match step
    case Send(frame) => s.(sent := s.sent + [frame], posted := s.posted + [frame])
    case RunPosted =>
      var t := s.(posted := s.posted[1..], queue := s.queue + [s.posted[0]]);
      if s.queue == [] then StartWrite(t) else t
    case WriteSome(n) =>
      s.(wire := s.wire + s.queue[0][s.written..s.written + n], written := s.written + n)
    case WriteDone =>
      var t := s.(queue := s.queue[1..], writing := false, written := 0, finished := s.finished + 1);
      if t.queue != [] then StartWrite(t) else t
    case WriteFails => s.(writing := false, failed := true, finished := s.finished + 1)
  }

  predicate Legal(s: State, steps: seq<Step>)
    decreases |steps|
  {
    steps == [] || (Enabled(s, steps[0]) && Legal(Next(s, steps[0]), steps[1..]))
  }

  function Exec(s: State, steps: seq<Step>): State
    requires Legal(s, steps)
    decreases |steps|
  {
    if steps == [] then s else Exec(Next(s, steps[0]), steps[1..])
  }

  /** With the frames `done` written in full: what was sent is those, then the queue, then the
      posted tasks, and the wire holds those and the written part of the front. */
  ghost predicate Inv(s: State, done: seq<seq<Byte>>) {
    && s.sent == done + s.queue + s.posted
    && (s.failed ==> s.queue != [] && !s.writing)
    && (!s.failed ==> (s.writing <==> s.queue != []))
    && s.started == s.finished + (if s.writing then 1 else 0)
    && s.written <= |Front(s)|
    && s.wire == Flatten(done) + Front(s)[..s.written]
  }

  function Front(s: State): seq<Byte> { if s.queue == [] then [] else s.queue[0] }

  lemma InvSend(s: State, done: seq<seq<Byte>>, frame: seq<Byte>)
    requires Inv(s, done)
    ensures Inv(Next(s, Send(frame)), done)
  {
  }

  lemma InvRunPosted(s: State, done: seq<seq<Byte>>)
    requires Inv(s, done) && Enabled(s, RunPosted)
    ensures Inv(Next(s, RunPosted), done)
  {
  }

  lemma InvWriteSome(s: State, done: seq<seq<Byte>>, n: nat)
    requires Inv(s, done) && Enabled(s, WriteSome(n))
    ensures Inv(Next(s, WriteSome(n)), done)
  {
  }

  lemma InvWriteDone(s: State, done: seq<seq<Byte>>)
    requires Inv(s, done) && Enabled(s, WriteDone)
    ensures Inv(Next(s, WriteDone), done + [s.queue[0]])
  {
    var f, t := s.queue[0], Next(s, WriteDone);
    assert s.queue == [f] + t.queue;
    Assoc(done, [f], t.queue);
    FlattenSnoc(done, f);
    assert f[..|f|] == f && Front(t)[..0] == [];
  }

  // ---- what a run amounts to, read off its steps ----

  /** The frames handed to `async_send`. */
  function Sent(steps: seq<Step>): seq<seq<Byte>> {
    if steps == [] then [] else (if steps[0].Send? then [steps[0].frame] else []) + Sent(steps[1..])
  }

  /** How many posted send tasks have run. */
  function TasksRun(steps: seq<Step>): nat {
    if steps == [] then 0 else (if steps[0].RunPosted? then 1 else 0) + TasksRun(steps[1..])
  }

  /** How many writes have completed with success. */
  function WritesDone(steps: seq<Step>): nat {
    if steps == [] then 0 else (if steps[0].WriteDone? then 1 else 0) + WritesDone(steps[1..])
  }

  /** How many bytes the socket has taken. */
  function Taken(steps: seq<Step>): nat {
    if steps == [] then 0 else (if steps[0].WriteSome? then steps[0].n else 0) + Taken(steps[1..])
  }

  /** From `s` with the frames `done` written to `t` with the frames `done'`, by `steps`. */
  ghost predicate Amounts(s: State, done: seq<seq<Byte>>, t: State, done': seq<seq<Byte>>, steps: seq<Step>) {
    && t.sent == s.sent + Sent(steps)
    && |t.posted| + TasksRun(steps) == |s.posted| + |Sent(steps)|
    && |done'| == |done| + WritesDone(steps)
    && |t.wire| == |s.wire| + Taken(steps)
    && (t.failed <==> s.failed || WriteFails in steps)
  }

  lemma StepAmounts(s: State, done: seq<seq<Byte>>, step: Step, done': seq<seq<Byte>>)
    requires Inv(s, done) && Enabled(s, step)
    requires done' == if step.WriteDone? then done + [s.queue[0]] else done
    ensures Amounts(s, done, Next(s, step), done', [step])
  {
    assert Sent([step][1..]) == [] && TasksRun([step][1..]) == 0;
    assert WritesDone([step][1..]) == 0 && Taken([step][1..]) == 0;
  }

  lemma AmountsPrepend(s: State, done0: seq<seq<Byte>>, t: State, done1: seq<seq<Byte>>, u: State,
                       done2: seq<seq<Byte>>, steps: seq<Step>)
    requires steps != []
    requires Amounts(s, done0, t, done1, [steps[0]]) && Amounts(t, done1, u, done2, steps[1..])
    ensures Amounts(s, done0, u, done2, steps)
  {
    var first := [steps[0]];
    assert first[1..] == [];
    assert Sent([]) == [] && TasksRun([]) == WritesDone([]) == Taken([]) == 0;
    assert Sent(steps) == Sent(first) + Sent(steps[1..]);
    assert TasksRun(steps) == TasksRun(first) + TasksRun(steps[1..]);
    assert WritesDone(steps) == WritesDone(first) + WritesDone(steps[1..]);
    assert Taken(steps) == Taken(first) + Taken(steps[1..]);
    Assoc(s.sent, Sent(first), Sent(steps[1..]));
    assert steps == first + steps[1..];
  }

  lemma StepInv(s: State, done: seq<seq<Byte>>, step: Step) returns (done': seq<seq<Byte>>)
    requires Inv(s, done) && Enabled(s, step)
    ensures Inv(Next(s, step), done')
    ensures Amounts(s, done, Next(s, step), done', [step])
  {
    done' := done;
    match step {
      case Send(frame) => InvSend(s, done, frame);
      case RunPosted => InvRunPosted(s, done);
      case WriteSome(n) => InvWriteSome(s, done, n);
      case WriteDone =>
        InvWriteDone(s, done);
        done' := done + [s.queue[0]];
      case WriteFails =>
    }
    StepAmounts(s, done, step, done');
  }

  lemma {:induction false} RunInv(s: State, done: seq<seq<Byte>>, steps: seq<Step>)
    returns (done': seq<seq<Byte>>)
    requires Inv(s, done) && Legal(s, steps)
    ensures Inv(Exec(s, steps), done') && Amounts(s, done, Exec(s, steps), done', steps)
    decreases |steps|
  {
    done' := done;
    if steps != [] {
      var done1 := StepInv(s, done, steps[0]);
      done' := RunInv(Next(s, steps[0]), done1, steps[1..]);
      AmountsPrepend(s, done, Next(s, steps[0]), done1, Exec(s, steps), done', steps);
    }
  }

  /** Every reachable state, read off the steps alone: of the frames handed to `async_send`, the tasks
      run have moved the first ones into the queue, the completed writes have taken the first of those
      out, the wire is the first bytes of all, and a write is outstanding unless the queue is empty or
      one failed. */
  lemma StateOf(steps: seq<Step>)
    requires Legal(INITIAL, steps)
    ensures WritesDone(steps) <= TasksRun(steps) <= |Sent(steps)| && Taken(steps) <= |Flatten(Sent(steps))|
    ensures var s, sent := Exec(INITIAL, steps), Sent(steps);
      && s.sent == sent
      && s.posted == sent[TasksRun(steps)..]
      && s.queue == sent[WritesDone(steps)..TasksRun(steps)]
      && s.wire == Flatten(sent)[..Taken(steps)]
      && (s.failed <==> WriteFails in steps)
      && (s.writing <==> !s.failed && s.queue != [])
  {
    var s := Exec(INITIAL, steps);
    var done := RunInv(INITIAL, [], steps);
    assert s.sent == Sent(steps);
    WireIsPrefix(s, done);
  }

  lemma WireIsPrefix(s: State, done: seq<seq<Byte>>)
    requires Inv(s, done)
    ensures s.wire <= Flatten(s.sent)
  {
    FlattenConcat(done + s.queue, s.posted);
    FlattenConcat(done, s.queue);
    if s.queue == [] {
      assert Flatten(s.queue) == [] && s.wire == Flatten(done);
    } else {
      assert s.queue == [s.queue[0]] + s.queue[1..];
    }
  }

  /** In every reachable state at most one of the writes started has not completed, and until a write
      fails there is one exactly when the queue is not empty. */
  lemma OneWrite(steps: seq<Step>)
    requires Legal(INITIAL, steps)
    ensures var s := Exec(INITIAL, steps);
      && s.started - s.finished == (if s.writing then 1 else 0)
      && (!s.failed ==> (s.writing <==> s.queue != []))
      && (s.failed ==> !s.writing && s.queue != [])
  {
    var done := RunInv(INITIAL, [], steps);
  }

  /** No step but its own completion ends, replaces or joins an outstanding write. */
  lemma WriteGoesOn(steps: seq<Step>, step: Step)
    requires Legal(INITIAL, steps) && Enabled(Exec(INITIAL, steps), step)
    requires Exec(INITIAL, steps).writing && !step.WriteDone? && !step.WriteFails?
    ensures var s := Exec(INITIAL, steps); var t := Next(s, step);
      && t.writing && t.started == s.started && s.queue != [] && t.queue != [] && Front(t) == Front(s)
      && t.written == s.written + (if step.WriteSome? then step.n else 0)
  {
    var done := RunInv(INITIAL, [], steps);
  }

  /** After a failed write no further byte reaches the wire, whatever is sent or posted later. */
  lemma {:induction false} SilentAfterFailure(s: State, done: seq<seq<Byte>>, steps: seq<Step>)
    requires Inv(s, done) && s.failed && Legal(s, steps)
    ensures Exec(s, steps).wire == s.wire && Exec(s, steps).failed
    decreases |steps|
  {
    if steps != [] {
      var done' := StepInv(s, done, steps[0]);
      SilentAfterFailure(Next(s, steps[0]), done', steps[1..]);
    }
  }

  ghost predicate AllFrames(frames: seq<seq<Byte>>) {
    forall i :: 0 <= i < |frames| ==> IsFrame(frames[i])
  }

  /** The peer's reader, run on the bytes written so far in any interleaving of sends, posts, partial
      writes and failures, finds a prefix of the sent frames, unchanged and in order, and never a
      refused length; the frames it lacks are still queued or posted. */
  lemma Delivery(steps: seq<Step>)
    requires Legal(INITIAL, steps) && AllFrames(Sent(steps))
    ensures var s := Exec(INITIAL, steps); var scan := ScanStream(s.wire);
      && !scan.bad && scan.frames <= Sent(steps)
      && (s.queue == [] && s.posted == [] ==> scan == Scan(Sent(steps), [], false))
      && |Sent(steps)| - |s.queue| - |s.posted| <= |scan.frames| <= |Sent(steps)| - |s.posted|
  {
    var done := RunInv(INITIAL, [], steps);
    WireDelivers(Exec(INITIAL, steps), done);
  }

  lemma WireDelivers(s: State, done: seq<seq<Byte>>)
    requires Inv(s, done) && AllFrames(s.sent)
    ensures var scan := ScanStream(s.wire);
      && !scan.bad && scan.frames <= s.sent
      && (s.queue == [] && s.posted == [] ==> scan == Scan(s.sent, [], false))
      && |s.sent| - |s.queue| - |s.posted| <= |scan.frames| <= |s.sent| - |s.posted|
  {
    WireScan(s, done);
    Leading(done, s.queue, s.posted);
    assert |s.sent| == |done| + |s.queue| + |s.posted|;
    if s.queue == [] && s.posted == [] {
      assert s.sent == done;
    }
  }

  lemma Leading<T>(a: seq<T>, b: seq<T>, c: seq<T>)
    ensures a <= a + b + c
    ensures b != [] ==> a + [b[0]] <= a + b + c
  {
  }

  /** The scan of the wire: the finished frames, and the front too once all of it is written. */
  lemma WireScan(s: State, done: seq<seq<Byte>>)
    requires Inv(s, done) && AllFrames(s.sent)
    ensures var scan := ScanStream(s.wire);
      if s.queue == [] then scan == Scan(done, [], false)
      else scan.frames == (if s.written < |s.queue[0]| then done else done + [s.queue[0]]) && !scan.bad
  {
    assert AllFrames(done) by {
      forall i | 0 <= i < |done| ensures IsFrame(done[i]) {
        assert done[i] == s.sent[i];
      }
    }
    if s.queue == [] {
      ScanUnique(done, []);
    } else {
      var f := s.queue[0];
      assert s.sent[|done|] == f;
      if s.written < |f| {
        PartOfFrame(f, s.written);
        NotBoth(f[..s.written]);
        ScanUnique(done, f[..s.written]);
      } else {
        assert f[..s.written] == f;
        WholeFront(done, f);
      }
    }
  }

  lemma WholeFront(done: seq<seq<Byte>>, f: seq<Byte>)
    requires AllFrames(done) && IsFrame(f)
    ensures ScanStream(Flatten(done) + f) == Scan(done + [f], [], false)
  {
    FlattenSnoc(done, f);
    assert Flatten(done + [f]) + [] == Flatten(done) + f;
    ScanUnique(done + [f], []);
  }

  lemma PartOfFrame(f: seq<Byte>, n: nat)
    requires IsFrame(f) && n < |f|
    ensures Partial(f[..n])
  {
  }

  // ---- end to end ----

  /** The packages a sender can build and a reader accepts. */
  ghost predicate Deliverable(p: Package) {
    && Encodable(p) && |Bytes(p)| <= MAX_PACKAGE_SIZE + 4
    && (p.credentials.Some? ==>
          && p.flags == AUTHENTICATED
          && |p.credentials.value.login| <= 255 && |p.credentials.value.password| <= 255)
  }

  /** Packages encoded and sent come out of the peer's reader and view as the packages they were, in
      order, none skipped or repeated. */
  lemma EndToEnd(packages: seq<Package>, steps: seq<Step>, i: nat)
    requires forall k :: 0 <= k < |packages| ==> Deliverable(packages[k])
    requires Legal(INITIAL, steps)
    requires Sent(steps) == seq(|packages|, k requires 0 <= k < |packages| => Bytes(packages[k]))
    requires i < |ScanStream(Exec(INITIAL, steps).wire).frames|
    ensures i < |packages|
    ensures var frame := ScanStream(Exec(INITIAL, steps).wire).frames[i];
      InBounds(frame) && Decode(frame) == Some(packages[i])
  {
    var sent := Sent(steps);
    forall k | 0 <= k < |sent| ensures IsFrame(sent[k]) {
      EncodingIsFrame(packages[k]);
    }
    Delivery(steps);
    assert ScanStream(Exec(INITIAL, steps).wire).frames[i] == sent[i];
    DecodeEncode(packages[i]);
  }
}

module SendQueueModule {
  import opened Seqs
  import opened TcpPackage
  import opened Framing
  import opened SendQueueSpec

  /** The sending half of a connection. `posted` is the executor's queue of send tasks; the socket
      takes the bytes of the outstanding write a few at a time. */
  class Sender {
    var posted: seq<seq<Byte>>
    var messageQueue: seq<seq<Byte>>
    var writing: bool
    var written: nat
    var open: bool
    ghost var sent: seq<seq<Byte>>
    ghost var wire: seq<Byte>
    ghost var started: nat
    ghost var finished: nat

    ghost function View(): State
      reads this
    {
      State(sent, posted, messageQueue, writing, written, !open, wire, started, finished)
    }

    constructor ()
      ensures View() == INITIAL
    {
      posted, messageQueue, writing, written, open := [], [], false, 0, true;
      sent, wire, started, finished := [], [], 0, 0;
    }

    method AsyncSend(frame: seq<Byte>)
      modifies this
      ensures View() == Next(old(View()), Send(frame))
    {
      posted := posted + [frame];
      sent := sent + [frame];
    }

    method RunPosted()
      requires Enabled(View(), Step.RunPosted)
      modifies this
      ensures View() == Next(old(View()), Step.RunPosted)
    {
      var frame := posted[0];
      posted := posted[1..];
      var writeInProgress := messageQueue != [];
      messageQueue := messageQueue + [frame];
      if !writeInProgress {
        DoAsyncSend();
      }
    }

    /** Start the write of the queue's front. */
    method DoAsyncSend()
      requires messageQueue != []
      modifies this`writing, this`written, this`started
      ensures View() == StartWrite(old(View()))
    {
      writing, written, started := true, 0, started + 1;
    }

    method WriteSome(n: nat)
      requires Enabled(View(), Step.WriteSome(n))
      modifies this
      ensures View() == Next(old(View()), Step.WriteSome(n))
    {
      wire := wire + messageQueue[0][written..written + n];
      written := written + n;
    }

    /** The completion handler of the write: `failed` is its error code. */
    method OnWritten(failed: bool)
      requires Enabled(View(), if failed then WriteFails else WriteDone)
      modifies this
      ensures View() == Next(old(View()), if failed then WriteFails else WriteDone)
    {
      writing, finished := false, finished + 1;
      if failed {
        open := false;
      } else {
        messageQueue := messageQueue[1..];
        written := 0;
        if messageQueue != [] {
          DoAsyncSend();
        }
      }
    }

    method Perform(step: Step)
      requires Enabled(View(), step)
      modifies this
      ensures View() == Next(old(View()), step)
    {
      match step {
        case Send(frame) => AsyncSend(frame);
        case RunPosted => RunPosted();
        case WriteSome(n) => WriteSome(n);
        case WriteDone => OnWritten(false);
        case WriteFails => OnWritten(true);
      }
    }
  }

  /** Every run drives the object through the states of the protocol, so a peer reading its bytes finds
      a prefix of the frames sent. */
  method Run(steps: seq<Step>) returns (sender: Sender)
    requires Legal(INITIAL, steps)
    ensures Taken(steps) <= |Flatten(Sent(steps))|
    ensures sender.View() == Exec(INITIAL, steps) && sender.sent == Sent(steps)
    ensures sender.wire == Flatten(Sent(steps))[..Taken(steps)]
    ensures AllFrames(Sent(steps)) ==>
              ScanStream(sender.wire).frames <= Sent(steps) && !ScanStream(sender.wire).bad
  {
    sender := new Sender();
    for i := 0 to |steps|
      invariant fresh(sender) && Legal(sender.View(), steps[i..])
      invariant Exec(sender.View(), steps[i..]) == Exec(INITIAL, steps)
    {
      assert steps[i..][1..] == steps[i + 1..];
      sender.Perform(steps[i]);
    }
    StateOf(steps);
    if AllFrames(Sent(steps)) {
      Delivery(steps);
    }
  }
}
