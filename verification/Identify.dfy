/** Identification with retries: one correlation id, one timer, re-sent on every timeout. */
module IdentifySpec {
  import opened Seqs
  import opened Timers

  /** The handler is moved out of the operation the first time it is registered; what a later
      registration moves is the moved-from rest. */
  datatype Handler = Original | MovedFrom

  datatype Outcome = Answered | TimedOut | TimerError

  datatype Call = Call(handler: Handler, outcome: Outcome)

  /** `entry` is the operations map at the correlation id, `slot` the operation's `handler_`, `sends`
      counts the identify packages and `threw` the failed map lookups. */
  datatype State = State(
    reconnections: nat, slot: Handler, entry: Option<Handler>, timer: Timer, sends: nat, calls: seq<Call>,
    threw: nat)

  /** Send, register without overwriting, arm the timer. */
  function Initiate(s: State): State {
    s.(sends := s.sends + 1, entry := if s.entry.Some? then s.entry else Some(s.slot), slot := MovedFrom,
       timer := Waiting)
  }

  const STARTED := Initiate(State(0, Original, None, Finished, 0, [], 0))

  /** Call the handler in the map, which cancels the timer. The entry stays. */
  function Invoke(s: State, outcome: Outcome): State {
    if s.entry.None? then s.(threw := s.threw + 1)
    else
      s.(timer := if s.timer == Waiting then Aborted else s.timer,
         calls := s.calls + [Call(s.entry.value, outcome)])
  }

  datatype Step = Respond | Expire | Fail | RunTimer

  predicate Enabled(s: State, step: Step) {
    match step
    case Respond => true
    case Expire => s.timer == Waiting
    case Fail => s.timer == Waiting
    case RunTimer => s.timer in {Expired, Aborted, Faulted}
  }

  /** `max` is `max_reconnections`. */
  function Next(max: nat, s: State, step: Step): State
    requires Enabled(s, step)
  {
    match step
    case Respond => if s.entry.Some? then Invoke(s, Answered).(entry := None) else s
    case Expire => s.(timer := Expired)
    case Fail => s.(timer := Faulted)
    case RunTimer =>
      var run := s.(timer := Finished);
      match s.timer
      case Expired =>
        if max > 0 && s.reconnections < max then Initiate(run.(reconnections := s.reconnections + 1))
        else Invoke(run, TimedOut)
      case Faulted => Invoke(run, TimerError)
      case _ => run
  }

  predicate Legal(max: nat, s: State, steps: seq<Step>)
    decreases |steps|
  {
    steps == [] || (Enabled(s, steps[0]) && Legal(max, Next(max, s, steps[0]), steps[1..]))
  }

  function Exec(max: nat, s: State, steps: seq<Step>): State
    requires Legal(max, s, steps)
    decreases |steps|
  {
    if steps == [] then s else Exec(max, Next(max, s, steps[0]), steps[1..])
  }

  // ---- nothing but timeouts ----

  /** `k` timeouts in a row. */
  function Timeouts(k: nat): seq<Step> {
    if k == 0 then [] else [Expire, RunTimer] + Timeouts(k - 1)
  }

  lemma OneTimeout(max: nat, s: State, rest: seq<Step>)
    requires s.timer == Waiting && Legal(max, Next(max, s.(timer := Expired), RunTimer), rest)
    ensures Legal(max, s, [Expire, RunTimer] + rest)
    ensures Exec(max, s, [Expire, RunTimer] + rest) == Exec(max, Next(max, s.(timer := Expired), RunTimer), rest)
  {
  }

  /** The client after `sent` packages, all but the last timed out. */
  ghost predicate Retrying(max: nat, s: State, sent: nat) {
    1 <= sent <= max + 1 && s == State(sent - 1, MovedFrom, Some(Original), Waiting, sent, [], 0)
  }

  /** The client after the last package timed out as well. */
  ghost predicate GivenUp(max: nat, s: State) {
    s == State(max, MovedFrom, Some(Original), Finished, max + 1, [Call(Original, TimedOut)], 0)
  }

  lemma {:induction false} RetryFrom(max: nat, s: State, sent: nat, k: nat)
    requires Retrying(max, s, sent) && k <= max + 2 - sent
    ensures Legal(max, s, Timeouts(k))
    ensures var t := Exec(max, s, Timeouts(k));
      if sent + k <= max + 1 then Retrying(max, t, sent + k) else GivenUp(max, t)
    decreases k
  {
    if k > 0 {
      var t := Next(max, s.(timer := Expired), RunTimer);
      if sent <= max {
        RetryFrom(max, t, sent + 1, k - 1);
      } else {
        assert GivenUp(max, t) && Timeouts(0) == [];
      }
      OneTimeout(max, s, Timeouts(k - 1));
    }
  }

  /** With `k` timeouts in a row and nothing else, k + 1 packages have gone out, up to
      `max_reconnections` + 1; the handler registered first is in the map throughout, and it is called
      by the timeout after the last package and by none before. */
  lemma Retries(max: nat, k: nat)
    requires k <= max + 1
    ensures Legal(max, STARTED, Timeouts(k))
    ensures var s := Exec(max, STARTED, Timeouts(k));
      && s.entry == Some(Original) && s.threw == 0
      && s.sends == Min(k, max) + 1
      && s.calls == (if k <= max then [] else [Call(Original, TimedOut)])
      && (s.timer == Waiting <==> k <= max)
  {
    RetryFrom(max, STARTED, 1, k);
  }

  // ---- any interleaving ----

  ghost predicate Inv(max: nat, s: State) {
    && s.sends == s.reconnections + 1 <= max + 1 && s.slot == MovedFrom
    && (s.entry == Some(Original) ==> forall i :: 0 <= i < |s.calls| ==> s.calls[i].outcome != Answered)
    && (s.entry != Some(Original) ==> exists i :: 0 <= i < |s.calls| && s.calls[i] == Call(Original, Answered))
    && (s.timer in {Waiting, Expired} && s.entry == Some(Original) ==> s.calls == [])
    && (s.timer == Waiting ==> s.entry.Some?)
  }

  lemma StepInv(max: nat, s: State, step: Step)
    requires Inv(max, s) && Enabled(s, step)
    ensures Inv(max, Next(max, s, step))
  {
    var t := Next(max, s, step);
    if s.entry != Some(Original) {
      var i :| 0 <= i < |s.calls| && s.calls[i] == Call(Original, Answered);
      assert t.calls[i] == Call(Original, Answered);
    } else if step.Respond? {
      assert t.calls[|s.calls|] == Call(Original, Answered);
    }
  }

  lemma {:induction false} RunInv(max: nat, s: State, steps: seq<Step>)
    requires Inv(max, s) && Legal(max, s, steps)
    ensures Inv(max, Exec(max, s, steps))
    decreases |steps|
  {
    if steps != [] {
      StepInv(max, s, steps[0]);
      RunInv(max, Next(max, s, steps[0]), steps[1..]);
    }
  }

  /** The completion sends once more: the timer expired and a retry is left. */
  predicate RetryLeft(max: nat, s: State) { s.timer == Expired && s.reconnections < max }

  /** Over every run at most `max_reconnections` + 1 packages go out. When a completion runs, of a timer
      expired or failed, the first handler is in the map exactly if no response was dispatched to it
      before. If one was, a retry registers the moved-from rest. Without a retry the lookup throws
      exactly when the entry is gone, and else its handler is told of the timeout or the error. */
  lemma CompletionFinds(max: nat, steps: seq<Step>)
    requires Legal(max, STARTED, steps) && Exec(max, STARTED, steps).timer in {Expired, Faulted}
    ensures var s := Exec(max, STARTED, steps); var t := Next(max, s, RunTimer);
      && t.sends == s.sends + (if RetryLeft(max, s) then 1 else 0) <= max + 1
      && t.timer == (if RetryLeft(max, s) then Waiting else Finished)
      && (t.entry == Some(Original) <==> Call(Original, Answered) !in s.calls)
      && (Call(Original, Answered) in s.calls && RetryLeft(max, s) ==> t.entry == Some(MovedFrom))
      && t.threw == s.threw + (if !RetryLeft(max, s) && s.entry == None then 1 else 0)
      && t.calls == s.calls
                    + if RetryLeft(max, s) || s.entry == None then []
                      else [Call(s.entry.value, if s.timer == Expired then TimedOut else TimerError)]
  {
    assert Inv(max, STARTED);
    RunInv(max, STARTED, steps);
    var s := Exec(max, STARTED, steps);
    StepInv(max, s, RunTimer);
    if Call(Original, Answered) in s.calls {
      var i :| 0 <= i < |s.calls| && s.calls[i] == Call(Original, Answered);
      assert s.calls[i].outcome == Answered;
      assert s.entry != Some(Original);
      assert s.entry.Some? ==> s.entry.value.MovedFrom?;
      assert s.slot == MovedFrom;
    }
  }

  /** A response is handed to the handler in the map, at once, and empties the entry; with no entry it
      changes nothing. It never sends, throws or leaves the timer waiting. */
  lemma ResponseIsTold(max: nat, steps: seq<Step>)
    requires Legal(max, STARTED, steps)
    ensures var s := Exec(max, STARTED, steps); var t := Next(max, s, Respond);
      && t.entry == None && t.timer != Waiting && t.sends == s.sends && t.threw == s.threw
      && t.calls == s.calls + if s.entry.Some? then [Call(s.entry.value, Answered)] else []
  {
    assert Inv(max, STARTED);
    RunInv(max, STARTED, steps);
  }

  /** The identification is over: nothing is registered and no timer will act. */
  ghost predicate Settled(s: State) { s.entry == None && s.timer in {Aborted, Finished} }

  lemma {:induction false} SettledStays(max: nat, s: State, steps: seq<Step>)
    requires Settled(s) && Legal(max, s, steps)
    ensures var t := Exec(max, s, steps);
      Settled(t) && t.sends == s.sends && t.calls == s.calls && t.threw == s.threw
    decreases |steps|
  {
    if steps != [] {
      SettledStays(max, Next(max, s, steps[0]), steps[1..]);
    }
  }

  /** Answered in time, an identification has succeeded for good: its handler, the first one or what a
      retry registered after it, is told, and no continuation sends, calls or throws any more. */
  lemma AnsweredInTime(max: nat, steps: seq<Step>, more: seq<Step>)
    requires Legal(max, STARTED, steps) && Exec(max, STARTED, steps).timer == Waiting
    requires Legal(max, Next(max, Exec(max, STARTED, steps), Respond), more)
    ensures var s := Exec(max, STARTED, steps); var t := Exec(max, Next(max, s, Respond), more);
      && s.entry.Some? && t.calls == s.calls + [Call(s.entry.value, Answered)]
      && t.sends == s.sends && t.threw == s.threw && t.entry == None
  {
    assert Inv(max, STARTED);
    RunInv(max, STARTED, steps);
    ResponseIsTold(max, steps);
    SettledStays(max, Next(max, Exec(max, STARTED, steps), Respond), more);
  }

  /** Both do happen: a response dispatched between the timer's end and the completion leaves a
      moved-from handler in the map if a retry is left, and else the completion throws. */
  lemma RaceHappens(max: nat, failed: bool)
    ensures var steps := [if failed then Fail else Expire, Respond, RunTimer];
      && Legal(max, STARTED, steps)
      && var t := Exec(max, STARTED, steps);
         && t.calls == [Call(Original, Answered)]
         && if failed || max == 0 then t.threw == 1 else t.entry == Some(MovedFrom) && t.threw == 0
  {
    var first := if failed then Fail else Expire;
    var s1 := Next(max, STARTED, first);
    var s2 := Next(max, s1, Respond);
    var steps := [first, Respond, RunTimer];
    assert steps[1..] == [Respond, RunTimer] && [Respond, RunTimer][1..] == [RunTimer];
    assert Legal(max, s2, [RunTimer]) && Exec(max, s2, [RunTimer]) == Next(max, s2, RunTimer);
    assert Legal(max, s1, [Respond, RunTimer]);
  }
}

module IdentifyModule {
  import opened Seqs
  import opened Timers
  import opened OperationsMapModule
  import opened IdentifySpec

  class IdentifyOp {
    const max: nat
    const key: Guid
    const operationsMap: OperationsMap<Handler>
    var reconnections: nat
    var handler: Handler
    var timer: Timer
    ghost var sends: nat
    ghost var calls: seq<Call>
    ghost var threw: nat

    ghost function View(): State
      reads this, operationsMap
    {
      State(reconnections, handler, operationsMap.Lookup(key), timer, sends, calls, threw)
    }

    constructor (max: nat, key: Guid)
      ensures View() == STARTED && fresh(operationsMap) && this.max == max
    {
      this.max, this.key := max, key;
      operationsMap := new OperationsMap();
      reconnections, handler, timer := 0, Original, Finished;
      sends, calls, threw := 0, [], 0;
      new;
      Start();
    }

    /** `initiate`. */
    method Start()
      modifies this, operationsMap
      ensures View() == Initiate(old(View()))
    {
      sends := sends + 1;
      operationsMap.RegisterOp(key, handler);
      handler := MovedFrom;
      timer := Waiting;
    }

    /** Call the entry of the map: the lookup throws when there is none. */
    method InvokeEntry(outcome: Outcome)
      modifies this
      ensures View() == Invoke(old(View()), outcome)
    {
      var entry := operationsMap.Lookup(key);
      if entry.None? {
        threw := threw + 1;
        return;
      }
      if timer == Waiting {
        timer := Aborted;
      }
      calls := calls + [Call(entry.value, outcome)];
    }

    /** A package under the correlation id, dispatched by the connection. */
    method OnReceived()
      modifies this, operationsMap
      ensures View() == Next(max, old(View()), Respond)
    {
      if operationsMap.Contains(key) {
        InvokeEntry(Answered);
        operationsMap.Erase(key);
      }
    }

    method TimerFires(failed: bool)
      requires timer == Waiting
      modifies this`timer
      ensures View() == Next(max, old(View()), if failed then Fail else Expire)
    {
      timer := if failed then Faulted else Expired;
    }

    /** The timer completion. */
    method OnTimer()
      requires Enabled(View(), RunTimer)
      modifies this, operationsMap
      ensures View() == Next(max, old(View()), RunTimer)
    {
      var completion := timer;
      timer := Finished;
      match completion {
        case Expired =>
          if max > 0 && reconnections < max {
            reconnections := reconnections + 1;
            Start();
          } else {
            InvokeEntry(TimedOut);
          }
        case Faulted => InvokeEntry(TimerError);
        case _ =>
      }
    }

    method Perform(step: Step)
      requires Enabled(View(), step)
      modifies this, operationsMap
      ensures View() == Next(max, old(View()), step)
    {
      match step {
        case Respond => OnReceived();
        case Expire => TimerFires(false);
        case Fail => TimerFires(true);
        case RunTimer => OnTimer();
      }
    }
  }

  /** Every run drives the object through the states of the protocol, so it never sends more than
      `max_reconnections` + 1 packages. */
  method Run(max: nat, key: Guid, steps: seq<Step>) returns (op: IdentifyOp)
    requires Legal(max, STARTED, steps)
    ensures op.View() == Exec(max, STARTED, steps) && op.sends <= max + 1
  {
    op := new IdentifyOp(max, key);
    for i := 0 to |steps|
      invariant fresh(op) && fresh(op.operationsMap) && op.max == max
      invariant Legal(max, op.View(), steps[i..])
      invariant Exec(max, op.View(), steps[i..]) == Exec(max, STARTED, steps)
    {
      assert steps[i..][1..] == steps[i + 1..];
      op.Perform(steps[i]);
    }
    assert Inv(max, STARTED);
    RunInv(max, STARTED, steps);
  }
}
