/** Request/response correlation: the operations map, the operations with their timeouts, and the
    dispatch of received packages. */
module OperationsMapModule {
  import opened Seqs

  /** Correlation ids, generated fresh. */
  type Guid = int

  class OperationsMap<V> {
    var operations: map<Guid, V>

    constructor ()
      ensures operations == map[]
    {
      operations := map[];
    }

    /** `emplace` does not overwrite. */
    method RegisterOp(key: Guid, op: V)
      modifies this
      ensures operations == if key in old(operations) then old(operations) else old(operations)[key := op]
    {
      if key !in operations {
        operations := operations[key := op];
      }
    }

    predicate Contains(key: Guid)
      reads this
    {
      key in operations
    }

    /** `at`: None stands for its `out_of_range` exception. */
    function Lookup(key: Guid): Option<V>
      reads this
    {
      if key in operations then Some(operations[key]) else None
    }

    method Erase(key: Guid)
      modifies this
      ensures operations == old(operations) - {key}
    {
      operations := operations - {key};
    }
  }
}

module Timers {

  /** An operation's timer: waiting, its completion queued (with success, `operation_aborted` or
      another error), or its completion run. */
  datatype Timer = Waiting | Expired | Aborted | Faulted | Finished
}

module Dispatch {

  /** What a received package goes to. */
  datatype Target = Operation | Subscription | Heartbeat | Ignored

  datatype Command = HeartbeatRequest | Other

  /** The operations map comes first, then the subscriptions map, then the command. */
  function Route(inOperations: bool, inSubscriptions: bool, command: Command): Target {
    if inOperations then Operation
    else if inSubscriptions then Subscription
    else if command.HeartbeatRequest? then Heartbeat
    else Ignored
  }
}

module OperationSpec {
  import opened Seqs
  import opened OperationsMapModule
  import opened Timers

  datatype Outcome = Response | TimedOut | TimerError

  datatype Call = Call(key: Guid, outcome: Outcome)

  /** `pending` are the keys in the operations map. `calls` logs the handlers called and `threw` the
      timer completions that ended in the exception of the map lookup. */
  datatype State = State(pending: set<Guid>, timers: map<Guid, Timer>, calls: seq<Call>, threw: seq<Guid>)

  const INITIAL := State({}, map[], [], [])

  /** `operation_op::initiate` for a fresh key. */
  function Start(s: State, key: Guid): State {
    s.(pending := s.pending + {key}, timers := s.timers[key := Waiting])
  }

  function StartAll(s: State, keys: seq<Guid>): State
    decreases |keys|
  {
    if keys == [] then s else StartAll(Start(s, keys[0]), keys[1..])
  }

  predicate Fresh(s: State, keys: seq<Guid>) {
    && (forall i :: 0 <= i < |keys| ==> keys[i] !in s.timers)
    && (forall i, j :: 0 <= i < j < |keys| ==> keys[i] != keys[j])
  }

  /** `deadline->cancel()` does not reach a completion that is already queued. */
  function Cancel(s: State, key: Guid): State {
    if key in s.timers && s.timers[key] == Waiting then s.(timers := s.timers[key := Aborted]) else s
  }

  /** Call the handler in the map, which may start further operations, and erase the key. */
  function Complete(s: State, key: Guid, outcome: Outcome, starts: seq<Guid>): State {
    var called := Cancel(s, key).(calls := s.calls + [Call(key, outcome)]);
    var started := StartAll(called, starts);
    started.(pending := started.pending - {key})
  }

  datatype Step =
    | Send(key: Guid)                              // an operation is started
    | Receive(key: Guid, starts: seq<Guid>)        // a package with this correlation id arrives
    | Expire(key: Guid)                            // a waiting timer reaches its deadline
    | Fail(key: Guid)                              // a waiting timer fails otherwise
    | RunTimer(key: Guid, starts: seq<Guid>)       // a queued timer completion runs

  predicate Enabled(s: State, step: Step) {
    match step
    case Send(k) => k !in s.timers
    case Receive(k, starts) => Fresh(s, starts)
    case Expire(k) => k in s.timers && s.timers[k] == Waiting
    case Fail(k) => k in s.timers && s.timers[k] == Waiting
    case RunTimer(k, starts) =>
      k in s.timers && s.timers[k] in {Expired, Aborted, Faulted} && Fresh(s, starts)
  }

  function Next(s: State, step: Step): State
    requires Enabled(s, step)
  {
    match step
    case Send(k) => Start(s, k)
    case Receive(k, starts) => if k in s.pending then Complete(s, k, Response, starts) else s
    case Expire(k) => s.(timers := s.timers[k := Expired])
    case Fail(k) => s.(timers := s.timers[k := Faulted])
    case RunTimer(k, starts) =>
      var run := s.(timers := s.timers[k := Finished]);
      match s.timers[k]
      case Expired =>
        if k in s.pending then Complete(run, k, TimedOut, starts) else run.(threw := s.threw + [k])
      case Faulted => if k in s.pending then Complete(run, k, TimerError, starts) else run
      case _ => run
  }

  predicate Legal(s: State, steps: seq<Step>)
    decreases |steps|
  {
    steps == [] || (Enabled(s, steps[0]) && Legal(Next(s, steps[0]), steps[1..]))
  }

  function Exec(s: State, steps: seq<Step>): State
    requires Legal(s, steps)
    decreases |steps|
  {
    if steps == [] then s else Exec(Next(s, steps[0]), steps[1..])
  }

  /** How often the handler of `key` was called. */
  function Calls(calls: seq<Call>, key: Guid): nat {
    if calls == [] then 0
    else Calls(calls[..|calls| - 1], key) + if calls[|calls| - 1].key == key then 1 else 0
  }

  lemma CallsSnoc(calls: seq<Call>, c: Call, key: Guid)
    ensures Calls(calls + [c], key) == Calls(calls, key) + if c.key == key then 1 else 0
  {
  }

  /** An operation's handler was called once, or its key is in the map; exactly one of the two. */
  ghost predicate Conserved(s: State, k: Guid) {
    Calls(s.calls, k) + (if k in s.pending then 1 else 0) == if k in s.timers then 1 else 0
  }

  ghost predicate Inv(s: State) {
    && s.pending <= s.timers.Keys
    && (forall k :: Conserved(s, k))
    && (forall k :: k in s.pending ==> s.timers[k] in {Waiting, Expired, Faulted})
    && (forall k :: k in s.timers && s.timers[k] == Waiting ==> k in s.pending)
    && (forall k :: k in s.timers && s.timers[k] == Expired && k !in s.pending ==> Call(k, Response) in s.calls)
    && (forall k :: k in s.threw ==> k in s.timers && s.timers[k] == Finished && Call(k, Response) in s.calls)
  }

  lemma StartInv(s: State, k: Guid)
    requires Inv(s) && k !in s.timers
    ensures Inv(Start(s, k))
  {
    var t := Start(s, k);
    forall j ensures Conserved(t, j) {
      assert Conserved(s, j);
    }
  }

  lemma {:induction false} StartAllInv(s: State, keys: seq<Guid>)
    requires Inv(s) && Fresh(s, keys)
    ensures Inv(StartAll(s, keys))
    decreases |keys|
  {
    if keys != [] {
      StartInv(s, keys[0]);
      StartAllInv(Start(s, keys[0]), keys[1..]);
    }
  }

  /** Which keys are fresh depends on the timers' keys only, and starting operations commutes with
      the erasure of a key already known. */
  lemma {:induction false} StartAllErase(s: State, t: State, key: Guid, keys: seq<Guid>)
    requires s.timers.Keys == t.timers.Keys && Fresh(s, keys) && key in t.timers
    ensures Fresh(t, keys)
    ensures StartAll(t.(pending := t.pending - {key}), keys)
         == StartAll(t, keys).(pending := StartAll(t, keys).pending - {key})
    decreases |keys|
  {
    if keys != [] {
      var k := keys[0];
      assert (t.pending - {key}) + {k} == (t.pending + {k}) - {key};
      StartAllErase(Start(s, k), Start(t, k), key, keys[1..]);
    }
  }

  /** The call of a handler followed by the erasure of its key. */
  lemma CompleteInv(s: State, key: Guid, outcome: Outcome, starts: seq<Guid>)
    requires key in s.timers && Inv(s.(timers := s.timers[key := Waiting])) && key in s.pending
    requires Fresh(s, starts) && key !in s.threw
    requires s.timers[key] in {Waiting, Expired, Faulted} ==> outcome == Response
    ensures Inv(Complete(s, key, outcome, starts))
  {
    var c := Cancel(s, key).(calls := s.calls + [Call(key, outcome)]);
    var t := c.(pending := s.pending - {key});
    forall k ensures Conserved(t, k) {
      CallsSnoc(s.calls, Call(key, outcome), k);
      assert Conserved(s.(timers := s.timers[key := Waiting]), k);
    }
    assert t.timers.Keys == s.timers.Keys;
    StartAllErase(s, c, key, starts);
    StartAllErase(s, t, key, starts);
    StartAllInv(t, starts);
  }

  lemma StepInv(s: State, step: Step)
    requires Inv(s) && Enabled(s, step)
    ensures Inv(Next(s, step))
  {
    match step {
      case Send(k) => StartInv(s, k);
      case Receive(k, starts) =>
        if k in s.pending {
          assert s.timers[k := Waiting].Keys == s.timers.Keys;
          ReceivePre(s, k);
          CompleteInv(s, k, Response, starts);
        }
      case Expire(k) => RetimeInv(s, k, Expired);
      case Fail(k) => RetimeInv(s, k, Faulted);
      case RunTimer(k, starts) =>
        var run := s.(timers := s.timers[k := Finished]);
        if k in s.pending && s.timers[k] != Aborted {
          ReceivePre(s, k);
          assert run.timers[k := Waiting] == s.timers[k := Waiting];
          CompleteInv(run, k, if s.timers[k] == Expired then TimedOut else TimerError, starts);
        } else {
          RetimeInv(s, k, Finished);
          if s.timers[k] == Expired {
            ThrowInv(run, k);
          }
        }
    }
  }

  /** A pending operation has not been given up by the timer in any way. */
  lemma ReceivePre(s: State, k: Guid)
    requires Inv(s) && k in s.pending
    ensures Inv(s.(timers := s.timers[k := Waiting])) && k !in s.threw
  {
    var t := s.(timers := s.timers[k := Waiting]);
    forall j ensures Conserved(t, j) {
      assert Conserved(s, j);
    }
  }

  lemma RetimeInv(s: State, k: Guid, timer: Timer)
    requires Inv(s) && k in s.timers
    requires if k in s.pending then timer == Expired || timer == Faulted else timer == Finished
    requires k in s.pending ==> s.timers[k] == Waiting
    ensures Inv(s.(timers := s.timers[k := timer]))
  {
    var t := s.(timers := s.timers[k := timer]);
    forall j ensures Conserved(t, j) {
      assert Conserved(s, j);
    }
  }

  lemma ThrowInv(s: State, k: Guid)
    requires Inv(s) && k in s.timers && s.timers[k] == Finished && Call(k, Response) in s.calls
    ensures Inv(s.(threw := s.threw + [k]))
  {
    var t := s.(threw := s.threw + [k]);
    forall j ensures Conserved(t, j) {
      assert Conserved(s, j);
    }
  }

  lemma {:induction false} RunInv(s: State, steps: seq<Step>)
    requires Inv(s) && Legal(s, steps)
    ensures Inv(Exec(s, steps))
    decreases |steps|
  {
    if steps != [] {
      StepInv(s, steps[0]);
      RunInv(Next(s, steps[0]), steps[1..]);
    }
  }

  /** For every started operation, over all orders of response, expiry, queued completion and late
      response: its handler was called once and its key is gone, or it was not called yet, its key is
      in the map and a timer is there to call it. */
  lemma Conservation(steps: seq<Step>, k: Guid)
    requires Legal(INITIAL, steps) && k in Exec(INITIAL, steps).timers
    ensures var s := Exec(INITIAL, steps);
      if k in s.pending then Calls(s.calls, k) == 0 && s.timers[k] in {Waiting, Expired, Faulted}
      else Calls(s.calls, k) == 1
  {
    assert Inv(INITIAL);
    RunInv(INITIAL, steps);
    assert Conserved(Exec(INITIAL, steps), k);
  }

  /** A timer completion with success throws exactly when a response arrived after the timer had
      expired and before the completion ran; then it calls no handler and erases nothing. Otherwise
      it calls the handler with `operation_timeout`. */
  lemma ThrowsIffAnswered(steps: seq<Step>, k: Guid, starts: seq<Guid>)
    requires Legal(INITIAL, steps) && Enabled(Exec(INITIAL, steps), RunTimer(k, starts))
    requires Exec(INITIAL, steps).timers[k] == Expired
    ensures var s := Exec(INITIAL, steps); var t := Next(s, RunTimer(k, starts));
      && (t.threw == s.threw + [k] <==> Call(k, Response) in s.calls)
      && (t.threw == s.threw + [k] ==> t.calls == s.calls && t.pending == s.pending)
      && (t.threw != s.threw + [k] ==> t.calls == s.calls + [Call(k, TimedOut)] && k !in t.pending)
  {
    assert Inv(INITIAL);
    RunInv(INITIAL, steps);
    var s := Exec(INITIAL, steps);
    assert Conserved(s, k);
    if k in s.pending && Call(k, Response) in s.calls {
      CalledOnce(s.calls, Call(k, Response));
    }
    StartAllKeeps(s.(timers := s.timers[k := Finished], calls := s.calls + [Call(k, TimedOut)]), starts);
  }

  lemma Prepend(s: State, step: Step, rest: seq<Step>)
    requires Enabled(s, step) && Legal(Next(s, step), rest)
    ensures Legal(s, [step] + rest) && Exec(s, [step] + rest) == Exec(Next(s, step), rest)
  {
  }

  /** It does happen: the response of any operation may arrive between the expiry of its timer and the
      completion. The handler then is called with the response, and the completion throws. */
  lemma ThrowHappens(k: Guid)
    ensures var steps := [Send(k), Expire(k), Receive(k, []), RunTimer(k, [])];
      && Legal(INITIAL, steps)
      && Exec(INITIAL, steps).threw == [k] && Exec(INITIAL, steps).calls == [Call(k, Response)]
  {
    var s1 := Next(INITIAL, Send(k));
    var s2 := Next(s1, Expire(k));
    var s3 := Next(s2, Receive(k, []));
    var d := RunTimer(k, []);
    var cd := [Receive(k, [])] + [d];
    var bcd := [Expire(k)] + cd;
    Prepend(s3, d, []);
    assert [d] + [] == [d];
    Prepend(s2, Receive(k, []), [d]);
    Prepend(s1, Expire(k), cd);
    Prepend(INITIAL, Send(k), bcd);
    assert [Send(k), Expire(k), Receive(k, []), d] == [Send(k)] + bcd;
  }

  lemma {:induction false} StartAllKeeps(s: State, keys: seq<Guid>)
    ensures StartAll(s, keys).calls == s.calls && StartAll(s, keys).threw == s.threw
    decreases |keys|
  {
    if keys != [] {
      StartAllKeeps(Start(s, keys[0]), keys[1..]);
    }
  }

  lemma {:induction false} CalledOnce(calls: seq<Call>, c: Call)
    requires c in calls
    ensures Calls(calls, c.key) >= 1
  {
    if calls[|calls| - 1] != c {
      CalledOnce(calls[..|calls| - 1], c);
    }
  }

  // ---- what becomes of an operation, read off the steps ----

  /** Of one operation: not started; started and not told anything yet, with the outcome its timer's
      queued completion will report, if there is one; or told. */
  datatype Fate = Unsent | Open(queued: Option<Outcome>) | Told(outcome: Outcome)

  /** A response, in time or between the timer's end and its completion, is what the operation is told;
      else it is what ended the timer. `calls`: the step calls a handler, which may start operations. */
  function FateStep(fate: Fate, k: Guid, step: Step, calls: bool): Fate {
    match step
    case Send(j) => if j == k then Open(None) else fate
    case Receive(j, starts) =>
      if j == k && fate.Open? then Told(Response) else if calls && k in starts then Open(None) else fate
    case Expire(j) => if j == k && fate.Open? then Open(Some(TimedOut)) else fate
    case Fail(j) => if j == k && fate.Open? then Open(Some(TimerError)) else fate
    case RunTimer(j, starts) =>
      if j == k && fate.Open? && fate.queued.Some? then Told(fate.queued.value)
      else if calls && k in starts then Open(None)
      else fate
  }

  predicate CallsHandler(step: Step, fate: Fate) { (step.Receive? || step.RunTimer?) && fate.Open? }

  function FateOf(steps: seq<Step>, k: Guid): Fate {
    if steps == [] then Unsent
    else
      var before, step := steps[..|steps| - 1], steps[|steps| - 1];
      FateStep(FateOf(before, k), k, step, CallsHandler(step, FateOf(before, step.key)))
  }

  /** The state agrees with a fate. */
  ghost predicate Shows(s: State, k: Guid, fate: Fate) {
    match fate
    case Unsent => k !in s.timers && Calls(s.calls, k) == 0
    case Open(queued) =>
      && k in s.pending && k in s.timers && Calls(s.calls, k) == 0
      && s.timers[k] == (match queued case None => Waiting case Some(TimedOut) => Expired case Some(_) => Faulted)
      && queued != Some(Response)
    case Told(outcome) =>
      && k !in s.pending && k in s.timers && s.timers[k] != Waiting
      && Calls(s.calls, k) == 1 && Call(k, outcome) in s.calls
  }

  lemma {:induction false} ExecSnoc(s: State, steps: seq<Step>)
    requires Legal(s, steps) && steps != []
    ensures var before, step := steps[..|steps| - 1], steps[|steps| - 1];
      && Legal(s, before) && Enabled(Exec(s, before), step)
      && Exec(s, steps) == Next(Exec(s, before), step)
    decreases |steps|
  {
    if |steps| > 1 {
      var t := Next(s, steps[0]);
      ExecSnoc(t, steps[1..]);
      assert steps[1..][..|steps| - 2] == steps[..|steps| - 1][1..];
    }
  }

  /** What starting operations does, key by key. */
  lemma {:induction false} StartAllEffect(s: State, keys: seq<Guid>, k: Guid)
    requires Fresh(s, keys)
    ensures var t := StartAll(s, keys);
      && t.calls == s.calls && t.threw == s.threw
      && (k in t.pending <==> k in s.pending || k in keys)
      && (k in t.timers <==> k in s.timers || k in keys)
      && (k in t.timers ==> t.timers[k] == if k in keys then Waiting else s.timers[k])
    decreases |keys|
  {
    if keys != [] {
      StartAllEffect(Start(s, keys[0]), keys[1..], k);
    }
  }

  /** A handler called: what becomes of its own key, of those it starts, and of all others. */
  lemma CompleteEffect(s: State, key: Guid, outcome: Outcome, starts: seq<Guid>, k: Guid)
    requires key in s.timers && Fresh(s, starts)
    ensures var t := Complete(s, key, outcome, starts);
      && t.calls == s.calls + [Call(key, outcome)] && t.threw == s.threw
      && Calls(t.calls, k) == Calls(s.calls, k) + (if k == key then 1 else 0)
      && (k in t.pending <==> k != key && (k in s.pending || k in starts))
      && (k in t.timers <==> k in s.timers || k in starts)
      && (k in starts ==> k != key && t.timers[k] == Waiting)
      && (k in s.timers ==>
            t.timers[k] == if k == key && s.timers[k] == Waiting then Aborted else s.timers[k])
  {
    var called := Cancel(s, key).(calls := s.calls + [Call(key, outcome)]);
    assert called.timers.Keys == s.timers.Keys;
    StartAllEffect(called, starts, k);
    CallsSnoc(s.calls, Call(key, outcome), k);
  }

  lemma ShowsReceive(s: State, j: Guid, starts: seq<Guid>, k: Guid, fate: Fate, other: Fate)
    requires Inv(s) && Enabled(s, Receive(j, starts)) && Shows(s, k, fate) && Shows(s, j, other)
    ensures Shows(Next(s, Receive(j, starts)), k, FateStep(fate, k, Receive(j, starts), other.Open?))
  {
    if other.Open? {
      CompleteEffect(s, j, Response, starts, k);
    }
  }

  lemma ShowsRunTimer(s: State, j: Guid, starts: seq<Guid>, k: Guid, fate: Fate, other: Fate)
    requires Inv(s) && Enabled(s, RunTimer(j, starts)) && Shows(s, k, fate) && Shows(s, j, other)
    ensures Shows(Next(s, RunTimer(j, starts)), k, FateStep(fate, k, RunTimer(j, starts), other.Open?))
  {
    if other.Open? {
      var run := s.(timers := s.timers[j := Finished]);
      CompleteEffect(run, j, if s.timers[j] == Expired then TimedOut else TimerError, starts, k);
    }
  }

  lemma ShowsStep(s: State, step: Step, k: Guid, fate: Fate, other: Fate)
    requires Inv(s) && Enabled(s, step) && Shows(s, k, fate) && Shows(s, step.key, other)
    ensures Shows(Next(s, step), k, FateStep(fate, k, step, CallsHandler(step, other)))
  {
    match step {
      case Receive(j, starts) => ShowsReceive(s, j, starts, k, fate, other);
      case RunTimer(j, starts) => ShowsRunTimer(s, j, starts, k, fate, other);
      case _ =>
    }
  }

  /** In every reachable state every operation is as its fate says: what it is told is fixed by the order
      of its start, its responses, its timer's end and its completion alone. */
  lemma {:induction false} FateIs(steps: seq<Step>, k: Guid)
    requires Legal(INITIAL, steps)
    ensures Shows(Exec(INITIAL, steps), k, FateOf(steps, k))
    decreases |steps|
  {
    if steps != [] {
      var before, step := steps[..|steps| - 1], steps[|steps| - 1];
      ExecSnoc(INITIAL, steps);
      assert Inv(INITIAL);
      RunInv(INITIAL, before);
      FateIs(before, k);
      FateIs(before, step.key);
      ShowsStep(Exec(INITIAL, before), step, k, FateOf(before, k), FateOf(before, step.key));
    }
  }

  /** A package under a pending key is handed to its operation, at once and whatever the timer does. */
  lemma ResponseIsTold(steps: seq<Step>, k: Guid, starts: seq<Guid>)
    requires Legal(INITIAL, steps) && k in Exec(INITIAL, steps).pending
    requires Enabled(Exec(INITIAL, steps), Receive(k, starts))
    ensures var s := Exec(INITIAL, steps); var t := Next(s, Receive(k, starts));
      && t.calls == s.calls + [Call(k, Response)] && k !in t.pending && k in t.timers && t.timers[k] != Waiting
      && forall j :: j in starts ==> j in t.pending
  {
    assert Inv(INITIAL);
    RunInv(INITIAL, steps);
    var s := Exec(INITIAL, steps);
    CompleteEffect(s, k, Response, starts, k);
    forall j | j in starts ensures j in Next(s, Receive(k, starts)).pending {
      CompleteEffect(s, k, Response, starts, j);
    }
  }

  /** A package under `k` comes at `i`, while the operation is open: started, and told nothing yet. */
  predicate AnsweredAt(steps: seq<Step>, k: Guid, i: nat) {
    i < |steps| && steps[i].Receive? && steps[i].key == k && FateOf(steps[..i], k).Open?
  }

  ghost predicate Answered(steps: seq<Step>, k: Guid) { exists i: nat :: AnsweredAt(steps, k, i) }

  lemma AnsweredSnoc(steps: seq<Step>, k: Guid)
    requires steps != []
    ensures Answered(steps, k) <==> Answered(steps[..|steps| - 1], k) || AnsweredAt(steps, k, |steps| - 1)
  {
    var n := |steps| - 1;
    forall i: nat | i < n ensures AnsweredAt(steps, k, i) <==> AnsweredAt(steps[..n], k, i) {
      assert steps[..n][..i] == steps[..i];
    }
  }

  /** What an operation is told is final. */
  lemma ToldStays(steps: seq<Step>, k: Guid)
    requires Legal(INITIAL, steps) && steps != [] && FateOf(steps[..|steps| - 1], k).Told?
    ensures FateOf(steps, k) == FateOf(steps[..|steps| - 1], k)
  {
    ExecSnoc(INITIAL, steps);
    FateIs(steps[..|steps| - 1], k);
  }

  /** An operation is told of a response if and only if a package under its key comes after its start
      and before its timer's completion has run. */
  lemma AnsweredIff(steps: seq<Step>, k: Guid)
    requires Legal(INITIAL, steps)
    ensures Call(k, Response) in Exec(INITIAL, steps).calls <==> Answered(steps, k)
  {
    FateIs(steps, k);
    ToldOne(steps, k);
    ToldResponseIff(steps, k);
  }

  /** The calls of a told operation are all of that outcome. */
  lemma ToldOne(steps: seq<Step>, k: Guid)
    requires Legal(INITIAL, steps)
    ensures var s := Exec(INITIAL, steps);
      Call(k, Response) in s.calls <==> FateOf(steps, k) == Told(Response)
  {
    FateIs(steps, k);
    var s, fate := Exec(INITIAL, steps), FateOf(steps, k);
    if Call(k, Response) in s.calls {
      CalledOnce(s.calls, Call(k, Response));
      if fate.Told? && fate.outcome != Response {
        CalledTwice(s.calls, Call(k, Response), Call(k, fate.outcome));
      }
    }
  }

  lemma {:induction false} CalledTwice(calls: seq<Call>, c: Call, d: Call)
    requires c in calls && d in calls && c != d && c.key == d.key
    ensures Calls(calls, c.key) >= 2
  {
    var before, last := calls[..|calls| - 1], calls[|calls| - 1];
    if last == c {
      CalledOnce(before, d);
    } else if last == d {
      CalledOnce(before, c);
    } else {
      CalledTwice(before, c, d);
    }
  }

  lemma {:induction false} ToldResponseIff(steps: seq<Step>, k: Guid)
    requires Legal(INITIAL, steps)
    ensures FateOf(steps, k) == Told(Response) <==> Answered(steps, k)
    decreases |steps|
  {
    if steps != [] {
      var n := |steps| - 1;
      var before := steps[..n];
      ExecSnoc(INITIAL, steps);
      FateIs(before, k);
      ToldResponseIff(before, k);
      AnsweredSnoc(steps, k);
      if FateOf(before, k).Told? {
        ToldStays(steps, k);
      }
    }
  }
}

module RequestsModule {
  import opened Seqs
  import opened OperationsMapModule
  import opened Timers
  import opened Dispatch
  import opened OperationSpec

  /** The requests of a connection. A handler in the map is its key. */
  class Requests {
    const operationsMap: OperationsMap<Guid>
    const subscriptionsMap: OperationsMap<Guid>
    var timers: map<Guid, Timer>
    var packageNo: nat  // an `unsigned int`
    ghost var calls: seq<Call>
    ghost var threw: seq<Guid>
    ghost var forwarded: seq<Guid>  // packages handed to a subscription's handler
    ghost var replies: nat          // heartbeat responses sent

    ghost predicate Valid()
      reads this
    {
      operationsMap != subscriptionsMap && packageNo < TWO_TO_32
    }

    ghost function View(): State
      reads this, operationsMap
    {
      State(operationsMap.operations.Keys, timers, calls, threw)
    }

    constructor ()
      ensures Valid() && View() == INITIAL && packageNo == 0 && forwarded == [] && replies == 0
      ensures fresh(operationsMap) && fresh(subscriptionsMap)
    {
      operationsMap := new OperationsMap();
      subscriptionsMap := new OperationsMap();
      timers, packageNo, calls, threw, forwarded, replies := map[], 0, [], [], [], 0;
    }

    /** `operation_op::initiate`. */
    method Initiate(key: Guid)
      requires Valid() && key !in timers
      modifies this, operationsMap
      ensures Valid() && View() == Start(old(View()), key)
      ensures unchanged(`packageNo, `forwarded, `replies)
    {
      operationsMap.RegisterOp(key, key);
      timers := timers[key := Waiting];
    }

    /** The handler in the map: cancel the timer and call the user's handler, which starts the
        operations `starts`. */
    method Invoke(key: Guid, outcome: Outcome, starts: seq<Guid>)
      requires Valid() && Fresh(View(), starts)
      modifies this, operationsMap
      ensures Valid() && unchanged(`packageNo, `forwarded, `replies)
      ensures View()
           == StartAll(Cancel(old(View()), key).(calls := old(calls) + [Call(key, outcome)]), starts)
    {
      if key in timers && timers[key] == Waiting {
        timers := timers[key := Aborted];
      }
      calls := calls + [Call(key, outcome)];
      InitiateAll(starts);
    }

    method InitiateAll(keys: seq<Guid>)
      requires Valid() && Fresh(View(), keys)
      modifies this, operationsMap
      ensures Valid() && View() == StartAll(old(View()), keys)
      ensures unchanged(`packageNo, `forwarded, `replies)
      decreases |keys|
    {
      if keys != [] {
        Initiate(keys[0]);
        InitiateAll(keys[1..]);
      }
    }

    /** `on_package_received`. What a subscription's handler does is not part of this class. */
    method OnPackageReceived(key: Guid, command: Command, starts: seq<Guid>)
      requires Valid() && Enabled(View(), Receive(key, starts))
      modifies this, operationsMap
      ensures Valid() && packageNo == ToUint32(old(packageNo) + 1)
      ensures View() == Next(old(View()), Receive(key, starts))
      ensures key !in old(operationsMap.operations) && subscriptionsMap.Contains(key) ==>
                forwarded == old(forwarded) + [key] && replies == old(replies)
      ensures key !in old(operationsMap.operations) && !subscriptionsMap.Contains(key) ==>
                forwarded == old(forwarded)
                && replies == old(replies) + if command == HeartbeatRequest then 1 else 0
      ensures key in old(operationsMap.operations) ==> forwarded == old(forwarded) && replies == old(replies)
    {
      packageNo := ToUint32(packageNo + 1);
      if operationsMap.Contains(key) {
        Invoke(key, Response, starts);
        operationsMap.Erase(key);
        return;
      }
      if subscriptionsMap.Contains(key) {
        forwarded := forwarded + [key];
        return;
      }
      match command {
        case HeartbeatRequest => replies := replies + 1;
        case Other =>
      }
    }

    /** The timer reaches its deadline, or fails: its completion is queued. */
    method TimerFires(key: Guid, failed: bool)
      requires Valid() && Enabled(View(), Expire(key))
      modifies this`timers
      ensures Valid() && View() == Next(old(View()), if failed then Fail(key) else Expire(key))
    {
      timers := timers[key := if failed then Faulted else Expired];
    }

    /** `operation_op::operator()`, the timer completion. */
    method OnTimer(key: Guid, starts: seq<Guid>)
      requires Valid() && Enabled(View(), RunTimer(key, starts))
      modifies this, operationsMap
      ensures Valid() && View() == Next(old(View()), RunTimer(key, starts))
      ensures unchanged(`packageNo, `forwarded, `replies)
    {
      var completion := timers[key];
      timers := timers[key := Finished];
      match completion {
        case Expired =>
          if operationsMap.Lookup(key).None? {
            threw := threw + [key];
            return;
          }
          Invoke(key, TimedOut, starts);
          operationsMap.Erase(key);
        case Faulted =>
          if operationsMap.Contains(key) {
            Invoke(key, TimerError, starts);
            operationsMap.Erase(key);
          }
        case _ =>
      }
    }

    /** What the connection does in one step; any command may come with a package. */
    method Perform(step: Step, command: Command)
      requires Valid() && Enabled(View(), step)
      modifies this, operationsMap
      ensures Valid() && View() == Next(old(View()), step)
    {
      match step {
        case Send(key) => Initiate(key);
        case Receive(key, starts) => OnPackageReceived(key, command, starts);
        case Expire(key) => TimerFires(key, false);
        case Fail(key) => TimerFires(key, true);
        case RunTimer(key, starts) => OnTimer(key, starts);
      }
    }
  }

  /** Every run drives the object through the states of the protocol, so every operation is as its fate
      says. */
  method Run(steps: seq<Step>, commands: seq<Command>) returns (requests: Requests)
    requires Legal(INITIAL, steps) && |commands| == |steps|
    ensures requests.Valid() && requests.View() == Exec(INITIAL, steps)
    ensures forall k :: Shows(requests.View(), k, FateOf(steps, k))
  {
    requests := new Requests();
    for i := 0 to |steps|
      invariant fresh(requests) && fresh(requests.operationsMap) && requests.Valid()
      invariant Legal(requests.View(), steps[i..])
      invariant Exec(requests.View(), steps[i..]) == Exec(INITIAL, steps)
    {
      assert steps[i..][1..] == steps[i + 1..];
      requests.Perform(steps[i], commands[i]);
    }
    forall k ensures Shows(requests.View(), k, FateOf(steps, k)) {
      FateIs(steps, k);
    }
  }
}
