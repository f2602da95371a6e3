/** How a volatile or persistent subscription ends: the handle guard, the unsubscribe request with its
    timeout, and the drop callback. One start of one subscription is followed, under its key. */
module DropSpec {
  import opened Seqs
  import opened OperationsMapModule
  import opened Timers
  import opened Dispatch

  datatype Child = Volatile | Persistent(autoAck: bool)

  datatype Error =
    | Unsubscribed | AccessDenied | NotFound | PersistentDeleted | MaxCountReached
    | NotAuthenticated | BadRequest | MaxOperationRetries | Unknown | ServerError
    | OperationTimeout | TimerFailure

  datatype Reason = RUnsubscribed | RAccessDenied | RNotFound | RPersistentDeleted | RMaxCountReached

  /** A package under the subscription's key. The user's event handler may call `unsubscribe()`
      while it handles an event. */
  datatype Package =
    | Confirmation
    | Event(id: Guid, unsubscribes: bool)
    | Dropped(reason: Reason)
    | NotAuthenticatedReply | BadRequestReply | NotHandled | OtherCommand

  /** History of the guard being locked: with which error, and how many events had been acknowledged. */
  datatype Lock = Lock(error: Error, acked: nat)

  /** `registered` and `op`: the key is in the subscriptions map, in the operations map. `timer` is
      that of the unsubscribe operation. `posted` are the drop tasks in the executor's queue, `drops`
      the calls of the drop callback, `delivered` and `acked` the ids handled and acknowledged. */
  datatype State = State(
    registered: bool, guard: bool, subscribed: bool, op: bool, timer: Option<Timer>, posted: seq<Error>,
    drops: seq<Error>, delivered: seq<Guid>, acked: seq<Guid>, unsubscribeRequests: nat, threw: nat,
    lock: Option<Lock>)

  /** After `async_start`. */
  const STARTED := State(true, false, false, false, None, [], [], [], [], 0, 0, None)

  /** `unsubscribe(ec, dropped)`: lock the guard, then ask the server or post the drop. */
  function Unsubscribe(s: State, error: Error): State {
    var t := s.(subscribed := false, guard := true,
                lock := if s.lock.Some? then s.lock else Some(Lock(error, |s.acked|)));
    if error == Unsubscribed then
      t.(unsubscribeRequests := t.unsubscribeRequests + 1, op := true, timer := Some(Waiting))
    else t.(posted := t.posted + [error])
  }

  /** The registered handler called with an error. */
  function OnError(s: State, error: Error): State {
    if s.guard then s else Unsubscribe(s, error)
  }

  /** `unsubscribe()`: a lookup that throws when the key is gone. */
  function UserUnsubscribe(s: State): State {
    if s.registered then OnError(s, Unsubscribed) else s.(threw := s.threw + 1)
  }

  function OnEvent(child: Child, s: State, id: Guid, unsubscribes: bool): State {
    var handled := s.(delivered := s.delivered + [id]);
    var t := if unsubscribes then UserUnsubscribe(handled) else handled;
    if child == Persistent(true) then t.(acked := t.acked + [id]) else t
  }

  /** The base class on what the child left to it. */
  function OnBase(s: State, p: Package): State {
    match p
    case Dropped(RUnsubscribed) => Unsubscribe(s, Unsubscribed)
    case Dropped(RAccessDenied) => Unsubscribe(s, AccessDenied)
    case Dropped(RNotFound) => Unsubscribe(s, NotFound)
    case Dropped(_) => s
    case NotAuthenticatedReply => Unsubscribe(s, NotAuthenticated)
    case BadRequestReply => Unsubscribe(s, BadRequest)
    case NotHandled => Unsubscribe(s, if s.subscribed then Unknown else MaxOperationRetries)
    case _ => Unsubscribe(s, ServerError)
  }

  function ReasonError(r: Reason): Error {
    match r
    case RAccessDenied => AccessDenied
    case RNotFound => NotFound
    case RPersistentDeleted => PersistentDeleted
    case RMaxCountReached => MaxCountReached
    case RUnsubscribed => Unsubscribed
  }

  /** The registered handler called with a package: the child first, then the base class. The
      persistent child drops by calling the registered handler again. */
  function OnPackage(child: Child, s: State, p: Package): State {
    if s.guard then s
    else
      match p
      case Confirmation => s.(subscribed := true)
      case Event(id, unsubscribes) => OnEvent(child, s, id, unsubscribes)
      case Dropped(r) => if child.Persistent? then OnError(s, ReasonError(r)) else OnBase(s, p)
      case _ => OnBase(s, p)
  }

  /** Any package answers a pending unsubscribe operation: erase the subscription, call back. */
  function OnAnswer(s: State): State {
    var t := if s.timer == Some(Waiting) then s.(timer := Some(Aborted)) else s;
    t.(registered := false, drops := t.drops + [Unsubscribed], op := false)
  }

  /** The unsubscribe operation ends with an error. */
  function OnOpError(s: State, error: Error): State { Unsubscribe(s, error).(op := false) }

  datatype Step =
    | Receive(p: Package)
    | CallUnsubscribe      // by the user, outside the event handler
    | Expire | Fail        // the operation's timer
    | RunTimer | RunPosted // queued work

  predicate Enabled(s: State, step: Step) {
    match step
    case Receive(_) => true
    case CallUnsubscribe => true
    case Expire => s.timer == Some(Waiting)
    case Fail => s.timer == Some(Waiting)
    case RunTimer => s.timer in {Some(Expired), Some(Aborted), Some(Faulted)}
    case RunPosted => s.posted != []
  }

  function Next(child: Child, s: State, step: Step): State
    requires Enabled(s, step)
  {
    match step
    case Receive(p) =>
      (match Route(s.op, s.registered, Command.Other)
       case Operation => OnAnswer(s)
       case Subscription => OnPackage(child, s, p)
       case _ => s)
    case CallUnsubscribe => UserUnsubscribe(s)
    case Expire => s.(timer := Some(Expired))
    case Fail => s.(timer := Some(Faulted))
    case RunTimer =>
      var run := s.(timer := Some(Finished));
      (match s.timer.value
       case Expired => if s.op then OnOpError(run, OperationTimeout) else run.(threw := s.threw + 1)
       case Faulted => if s.op then OnOpError(run, TimerFailure) else run
       case _ => run)
    case RunPosted =>
      s.(posted := s.posted[1..], registered := false, drops := s.drops + [s.posted[0]])
  }

  predicate Legal(child: Child, s: State, steps: seq<Step>)
    decreases |steps|
  {
    steps == [] || (Enabled(s, steps[0]) && Legal(child, Next(child, s, steps[0]), steps[1..]))
  }

  function Exec(child: Child, s: State, steps: seq<Step>): State
    requires Legal(child, s, steps)
    decreases |steps|
  {
    if steps == [] then s else Exec(child, Next(child, s, steps[0]), steps[1..])
  }

  // ---- invariant ----

  /** The unsubscribe request is on its way: its operation and timer are there to end it. */
  ghost predicate Asking(s: State) {
    && s.registered && s.op && s.posted == [] && s.drops == []
    && s.timer in {Some(Waiting), Some(Expired), Some(Faulted)}
  }

  /** A drop task is posted. */
  ghost predicate Dropping(s: State) {
    s.registered && !s.op && |s.posted| == 1 && s.drops == [] && s.timer in {None, Some(Finished)}
  }

  /** The callback has run. */
  ghost predicate Done(s: State) {
    !s.registered && !s.op && s.posted == [] && |s.drops| == 1 && s.timer != Some(Waiting)
  }

  /** The error reported for a subscription locked with `error`: that error, or how the request to
      unsubscribe failed. */
  ghost predicate Explains(error: Error, reported: Error) {
    reported == error || (error == Unsubscribed && reported in {OperationTimeout, TimerFailure})
  }

  ghost predicate Inv(child: Child, s: State) {
    && s.acked == (if child == Persistent(true) then s.delivered else [])
    && if !s.guard then
         && s.registered && !s.op && s.posted == [] && s.drops == [] && s.timer == None && s.lock == None
         && s.unsubscribeRequests == 0
       else
         && !s.subscribed && s.lock.Some?
         && s.unsubscribeRequests == (if s.lock.value.error == Unsubscribed then 1 else 0)
         && ( || (Asking(s) && s.lock.value.error == Unsubscribed)
              || (Dropping(s) && Explains(s.lock.value.error, s.posted[0]) && s.posted[0] != Unsubscribed)
              || (Done(s) && Explains(s.lock.value.error, s.drops[0])))
  }

  lemma LockInv(child: Child, s: State, error: Error)
    requires Inv(child, s) && !s.guard
    ensures Inv(child, Unsubscribe(s, error)) && Unsubscribe(s, error).guard
    ensures Unsubscribe(s, error).registered && Unsubscribe(s, error).drops == []
  {
  }

  lemma ReceiveInv(child: Child, s: State, p: Package)
    requires Inv(child, s) && !s.guard
    ensures Inv(child, OnPackage(child, s, p))
    ensures OnPackage(child, s, p).registered && OnPackage(child, s, p).drops == []
  {
    match p {
      case Confirmation =>
      case Event(id, unsubscribes) =>
        var t := s.(delivered := s.delivered + [id],
                    acked := if child == Persistent(true) then s.acked + [id] else s.acked);
        assert Inv(child, t);
        LockInv(child, t, Unsubscribed);
      case Dropped(r) =>
        LockInv(child, s, ReasonError(r));
      case NotAuthenticatedReply => LockInv(child, s, NotAuthenticated);
      case BadRequestReply => LockInv(child, s, BadRequest);
      case NotHandled => LockInv(child, s, if s.subscribed then Unknown else MaxOperationRetries);
      case OtherCommand => LockInv(child, s, ServerError);
    }
  }

  /** Every step keeps the invariant, and the callback runs in the step that erases the subscription's
      entry, and in no other. */
  lemma StepInv(child: Child, s: State, step: Step)
    requires Inv(child, s) && Enabled(s, step)
    ensures Inv(child, Next(child, s, step))
    ensures Next(child, s, step).drops != s.drops <==> s.registered && !Next(child, s, step).registered
  {
    if !s.guard {
      match step {
        case Receive(p) => ReceiveInv(child, s, p);
        case CallUnsubscribe => LockInv(child, s, Unsubscribed);
        case _ =>
      }
    } else {
      LockedInv(child, s, step);
    }
  }

  lemma LockedInv(child: Child, s: State, step: Step)
    requires Inv(child, s) && s.guard && Enabled(s, step)
    ensures Inv(child, Next(child, s, step))
    ensures Next(child, s, step).drops != s.drops <==> s.registered && !Next(child, s, step).registered
    ensures var t := Next(child, s, step);
      t.guard && t.delivered == s.delivered && t.acked == s.acked && t.lock == s.lock
  {
    var t := Next(child, s, step);
    if Asking(s) {
      assert step.Receive? ==> Done(t);
    } else if Dropping(s) {
      assert step.RunPosted? ==> Done(t) && t.drops == s.posted;
    }
  }

  lemma {:induction false} RunInv(child: Child, s: State, steps: seq<Step>)
    requires Inv(child, s) && Legal(child, s, steps)
    ensures Inv(child, Exec(child, s, steps))
    decreases |steps|
  {
    if steps != [] {
      StepInv(child, s, steps[0]);
      RunInv(child, Next(child, s, steps[0]), steps[1..]);
    }
  }

  // ---- results over every run ----

  /** In every reachable state: before the guard locks the subscription is registered and nothing of
      a drop exists; from then on exactly one of these holds: the unsubscribe operation is in the map
      with its timer, one drop task is posted, or the callback has run, once, with an error that the
      locking explains, and the entry is gone. */
  lemma DropAccounting(child: Child, steps: seq<Step>)
    requires Legal(child, STARTED, steps)
    ensures var s := Exec(child, STARTED, steps);
      && (!s.guard ==> s.registered && !s.op && s.posted == [] && s.drops == [])
      && (s.guard ==> (Asking(s) || Dropping(s) || Done(s)) && s.lock.Some?)
      && !(Asking(s) && Dropping(s)) && !(Dropping(s) && Done(s)) && !(Asking(s) && Done(s))
      && |s.drops| <= 1 && s.unsubscribeRequests <= 1
      && (s.drops != [] ==> !s.registered && Explains(s.lock.value.error, s.drops[0]))
  {
    RunInv(child, STARTED, steps);
  }

  // ---- the story of a subscription, read off the steps ----

  /** Following the stream; asking the server to unsubscribe, with the error the request's queued timer
      completion will report, if there is one; a drop queued; or over, with the error reported. */
  datatype Phase = Following | Requested(queued: Option<Error>) | Queued(error: Error) | Over(error: Error)

  datatype Story = Story(confirmed: bool, delivered: seq<Guid>, phase: Phase)

  /** What stops a subscription that is following, and with which error. A volatile subscription
      knows three reasons for a drop by the server and ignores the others. */
  function StopsWith(child: Child, confirmed: bool, step: Step): Option<Error> {
    match step
    case CallUnsubscribe => Some(Unsubscribed)
    case Receive(Event(_, unsubscribes)) => if unsubscribes then Some(Unsubscribed) else None
    case Receive(Dropped(RUnsubscribed)) => Some(Unsubscribed)
    case Receive(Dropped(RAccessDenied)) => Some(AccessDenied)
    case Receive(Dropped(RNotFound)) => Some(NotFound)
    case Receive(Dropped(RPersistentDeleted)) => if child.Persistent? then Some(PersistentDeleted) else None
    case Receive(Dropped(RMaxCountReached)) => if child.Persistent? then Some(MaxCountReached) else None
    case Receive(NotAuthenticatedReply) => Some(NotAuthenticated)
    case Receive(BadRequestReply) => Some(BadRequest)
    case Receive(NotHandled) => Some(if confirmed then Unknown else MaxOperationRetries)
    case Receive(OtherCommand) => Some(ServerError)
    case _ => None
  }

  function PhaseStep(child: Child, story: Story, step: Step): Phase {
    match story.phase
    case Following =>
      (match StopsWith(child, story.confirmed, step)
       case None => Following
       case Some(Unsubscribed) => Requested(None)
       case Some(error) => Queued(error))
    case Requested(queued) =>
      (match step
       case Receive(_) => Over(Unsubscribed)
       case Expire => Requested(Some(OperationTimeout))
       case Fail => Requested(Some(TimerFailure))
       case RunTimer => if queued.Some? then Queued(queued.value) else story.phase
       case _ => story.phase)
    case Queued(error) => if step.RunPosted? then Over(error) else story.phase
    case Over(_) => story.phase
  }

  function StoryStep(child: Child, story: Story, step: Step): Story {
    var following := story.phase.Following? && step.Receive?;
    Story(story.confirmed || (following && step.p.Confirmation?),
          story.delivered + (if following && step.p.Event? then [step.p.id] else []),
          PhaseStep(child, story, step))
  }

  function StoryOf(child: Child, story: Story, steps: seq<Step>): Story
    decreases |steps|
  {
    if steps == [] then story else StoryOf(child, StoryStep(child, story, steps[0]), steps[1..])
  }

  const BEGINNING := Story(false, [], Following)

  ghost predicate Agrees(s: State, story: Story) {
    && s.delivered == story.delivered
    && (s.guard <==> !story.phase.Following?)
    && match story.phase
       case Following =>
         s.registered && !s.op && s.posted == [] && s.drops == [] && s.subscribed == story.confirmed
       case Requested(queued) =>
         && Asking(s) && queued in {None, Some(OperationTimeout), Some(TimerFailure)}
         && s.timer.value == (if queued == None then Waiting
                              else if queued == Some(OperationTimeout) then Expired
                              else Faulted)
       case Queued(error) => Dropping(s) && s.posted == [error]
       case Over(error) => Done(s) && s.drops == [error]
  }

  lemma FollowingEvent(child: Child, s: State, story: Story, id: Guid, unsubscribes: bool)
    requires Inv(child, s) && Agrees(s, story) && !s.guard
    ensures var step := Receive(Event(id, unsubscribes));
      Agrees(Next(child, s, step), StoryStep(child, story, step))
  {
  }

  lemma FollowingDropped(child: Child, s: State, story: Story, reason: Reason)
    requires Inv(child, s) && Agrees(s, story) && !s.guard
    ensures var step := Receive(Dropped(reason));
      Agrees(Next(child, s, step), StoryStep(child, story, step))
  {
  }

  lemma FollowingStep(child: Child, s: State, story: Story, step: Step)
    requires Inv(child, s) && Agrees(s, story) && !s.guard && Enabled(s, step)
    ensures Agrees(Next(child, s, step), StoryStep(child, story, step))
  {
    if step.Receive? {
      if step.p.Event? {
        FollowingEvent(child, s, story, step.p.id, step.p.unsubscribes);
      } else if step.p.Dropped? {
        FollowingDropped(child, s, story, step.p.reason);
      }
    }
  }

  lemma StoppedStep(child: Child, s: State, story: Story, step: Step)
    requires Inv(child, s) && Agrees(s, story) && s.guard && Enabled(s, step)
    ensures Agrees(Next(child, s, step), StoryStep(child, story, step))
  {
    LockedInv(child, s, step);
  }

  lemma {:induction false} StoryFrom(child: Child, s: State, story: Story, steps: seq<Step>)
    requires Inv(child, s) && Agrees(s, story) && Legal(child, s, steps)
    ensures Agrees(Exec(child, s, steps), StoryOf(child, story, steps))
    decreases |steps|
  {
    if steps != [] {
      StepInv(child, s, steps[0]);
      if s.guard {
        StoppedStep(child, s, story, steps[0]);
      } else {
        FollowingStep(child, s, story, steps[0]);
      }
      StoryFrom(child, Next(child, s, steps[0]), StoryStep(child, story, steps[0]), steps[1..]);
    }
  }

  /** Every reachable state is the one its story tells: which events were handled, what stopped the
      subscription, how its end was asked for, and what was reported. */
  lemma StoryIs(child: Child, steps: seq<Step>)
    requires Legal(child, STARTED, steps)
    ensures Agrees(Exec(child, STARTED, steps), StoryOf(child, BEGINNING, steps))
  {
    StoryFrom(child, STARTED, BEGINNING, steps);
  }

  /** Any package answers a pending unsubscribe request: the subscription ends there and then, with
      `unsubscribed`, and the request's timer waits no longer. */
  lemma AnswerEnds(child: Child, steps: seq<Step>, p: Package)
    requires Legal(child, STARTED, steps) && Exec(child, STARTED, steps).op
    ensures var t := Next(child, Exec(child, STARTED, steps), Receive(p));
      Done(t) && t.drops == [Unsubscribed] && t.timer != Some(Waiting)
  {
    RunInv(child, STARTED, steps);
  }

  /** A lookup throws exactly when the subscription is over and the user unsubscribes again, or the
      completion of an expired request runs late. */
  lemma ThrowsWhenOver(child: Child, steps: seq<Step>, step: Step)
    requires Legal(child, STARTED, steps) && Enabled(Exec(child, STARTED, steps), step)
    ensures var s := Exec(child, STARTED, steps);
      Next(child, s, step).threw == s.threw
        + if Done(s) && (step == CallUnsubscribe || (step == RunTimer && s.timer == Some(Expired))) then 1 else 0
  {
    RunInv(child, STARTED, steps);
  }

  /** Once the guard is locked no event reaches the handler and none is acknowledged. */
  lemma {:induction false} LockedIsSilent(child: Child, s: State, steps: seq<Step>)
    requires Inv(child, s) && s.guard && Legal(child, s, steps)
    ensures var t := Exec(child, s, steps);
      t.guard && t.delivered == s.delivered && t.acked == s.acked && t.lock == s.lock
    decreases |steps|
  {
    if steps != [] {
      LockedInv(child, s, steps[0]);
      LockedIsSilent(child, Next(child, s, steps[0]), steps[1..]);
    }
  }

  /** Steps from a locked subscription to its callback: the timer, its completion, the drop task. */
  ghost function Rank(s: State): nat {
    if Done(s) then 0
    else if Dropping(s) then 1
    else if s.timer == Some(Waiting) then 3
    else 2
  }

  /** The callback comes: while it has not run, a step of the timer or the executor is due that
      brings it closer, and no step of anyone else delays it. */
  lemma CallbackComes(child: Child, s: State, step: Step)
    requires Inv(child, s) && s.guard && Enabled(s, step)
    ensures Rank(s) == 0 <==> |s.drops| == 1
    ensures Rank(s) > 0 ==> Enabled(s, if Rank(s) == 3 then Expire else if Rank(s) == 2 then RunTimer else RunPosted)
    ensures Rank(Next(child, s, step)) <= Rank(s)
    ensures step in {Expire, RunTimer, RunPosted} && Rank(s) > 0 ==> Rank(Next(child, s, step)) < Rank(s)
  {
  }

  /** The step of a run that locks the guard. */
  ghost function LockingStep(child: Child, s: State, steps: seq<Step>): Option<Step>
    requires Legal(child, s, steps)
    decreases |steps|
  {
    if steps == [] then None
    else
      var t := Next(child, s, steps[0]);
      if t.guard then Some(steps[0]) else LockingStep(child, t, steps[1..])
  }

  /** Events are acknowledged once each, in the order they were handled. */
  lemma AcksFollowEvents(child: Child, steps: seq<Step>)
    requires Legal(child, STARTED, steps)
    ensures Exec(child, STARTED, steps).acked
         == if child == Persistent(true) then Exec(child, STARTED, steps).delivered else []
  {
    RunInv(child, STARTED, steps);
  }

  /** An acknowledgement follows the locking of the guard exactly when the event handler itself
      unsubscribed from an auto-acknowledging subscription, and then it is that one event's. */
  lemma {:induction false} LateAcks(child: Child, s: State, steps: seq<Step>)
    requires Inv(child, s) && !s.guard && Legal(child, s, steps) && Exec(child, s, steps).guard
    ensures LockingStep(child, s, steps).Some? && Exec(child, s, steps).lock.Some?
    ensures var t := Exec(child, s, steps); var step := LockingStep(child, s, steps).value;
      |t.acked| == t.lock.value.acked
        + if child == Persistent(true) && step.Receive? && step.p.Event? && step.p.unsubscribes then 1 else 0
    decreases |steps|
  {
    var t := Next(child, s, steps[0]);
    StepInv(child, s, steps[0]);
    if t.guard {
      LockedIsSilent(child, t, steps[1..]);
    } else {
      LateAcks(child, t, steps[1..]);
    }
  }

  /** It does happen: the handler of the first event unsubscribes, and that event is acknowledged behind
      the unsubscribe request. */
  lemma LateAckHappens(id: Guid)
    ensures var child := Persistent(true); var steps := [Receive(Event(id, true))];
      && Legal(child, STARTED, steps)
      && var t := Exec(child, STARTED, steps);
         t.guard && t.lock == Some(Lock(Unsubscribed, 0)) && t.acked == [id]
  {
  }
}

module SubscriptionBaseModule {
  import opened Seqs
  import opened OperationsMapModule
  import opened Timers
  import opened Dispatch
  import opened DropSpec

  /** A subscription together with the entries its connection keeps under its key. */
  class SubscriptionBase {
    const child: Child
    const key: Guid
    const operationsMap: OperationsMap<Error>     // an entry holds the error to report
    const subscriptionsMap: OperationsMap<Guid>
    var handleGuard: bool
    var subscribed: bool
    var timer: Option<Timer>
    var posted: seq<Error>
    ghost var drops: seq<Error>
    ghost var delivered: seq<Guid>
    ghost var acked: seq<Guid>
    ghost var unsubscribeRequests: nat
    ghost var threw: nat
    ghost var lock: Option<Lock>

    ghost function View(): State
      reads this, operationsMap, subscriptionsMap
    {
      State(key in subscriptionsMap.operations, handleGuard, subscribed, key in operationsMap.operations,
            timer, posted, drops, delivered, acked, unsubscribeRequests, threw, lock)
    }

    /** An entry in the operations map is that of an unsubscribe request. */
    ghost predicate Valid()
      reads this, operationsMap
    {
      key in operationsMap.operations ==> operationsMap.operations[key] == Unsubscribed
    }

    constructor (child: Child, key: Guid)
      ensures Valid() && View() == STARTED && this.child == child && this.key == key
      ensures fresh(operationsMap) && fresh(subscriptionsMap)
    {
      this.child, this.key := child, key;
      operationsMap := new OperationsMap();
      subscriptionsMap := new OperationsMap();
      handleGuard, subscribed, timer, posted := false, false, None, [];
      drops, delivered, acked, unsubscribeRequests, threw, lock := [], [], [], 0, 0, None;
      new;
      subscriptionsMap.RegisterOp(key, key);
    }

    /** `unsubscribe(ec, dropped)`. */
    method UnsubscribeWith(error: Error)
      requires Valid()
      modifies this, operationsMap
      ensures Valid()
      ensures View() == Unsubscribe(old(View()), error)
    {
      if lock.None? {
        lock := Some(Lock(error, |acked|));
      }
      subscribed, handleGuard := false, true;
      if error == Unsubscribed {
        unsubscribeRequests := unsubscribeRequests + 1;
        operationsMap.RegisterOp(key, error);
        timer := Some(Waiting);
      } else {
        posted := posted + [error];
      }
    }

    method HandleError(error: Error)
      requires Valid()
      modifies this, operationsMap
      ensures Valid()
      ensures View() == OnError(old(View()), error)
    {
      if !handleGuard {
        UnsubscribeWith(error);
      }
    }

    /** `unsubscribe()`. */
    method UserCall()
      requires Valid()
      modifies this, operationsMap
      ensures Valid()
      ensures View() == UserUnsubscribe(old(View()))
    {
      if subscriptionsMap.Lookup(key).None? {
        threw := threw + 1;
        return;
      }
      HandleError(Unsubscribed);
    }

    /** `on_package_received` of the child: whether it handled the package. */
    method ChildHandles(p: Package) returns (handled: bool)
      requires Valid() && !handleGuard
      modifies this, operationsMap
      ensures Valid()
      ensures handled ==> View() == OnPackage(child, old(View()), p)
      ensures !handled ==> View() == old(View()) && OnPackage(child, old(View()), p) == OnBase(old(View()), p)
    {
      match p {
        case Confirmation =>
          subscribed := true;
          return true;
        case Event(id, unsubscribes) =>
          delivered := delivered + [id];
          if unsubscribes {
            UserCall();
          }
          if child == Persistent(true) {
            acked := acked + [id];
          }
          return true;
        case Dropped(reason) =>
          if child.Persistent? {
            HandleError(ReasonError(reason));
            return true;
          }
          return false;
        case _ => return false;
      }
    }

    /** The handler in the subscriptions map, called with a package. */
    method HandlePackage(p: Package)
      requires Valid()
      modifies this, operationsMap
      ensures Valid()
      ensures View() == OnPackage(child, old(View()), p)
    {
      if handleGuard {
        return;
      }
      var handled := ChildHandles(p);
      if handled {
        return;
      }
      match p {
        case Dropped(reason) =>
          match reason {
            case RUnsubscribed => UnsubscribeWith(Unsubscribed);
            case RAccessDenied => UnsubscribeWith(AccessDenied);
            case RNotFound => UnsubscribeWith(NotFound);
            case _ =>
          }
        case NotAuthenticatedReply => UnsubscribeWith(NotAuthenticated);
        case BadRequestReply => UnsubscribeWith(BadRequest);
        case NotHandled => UnsubscribeWith(if subscribed then Unknown else MaxOperationRetries);
        case _ => UnsubscribeWith(ServerError);
      }
    }

    /** The connection's dispatch of a package under the key. */
    method OnReceived(p: Package)
      requires Valid()
      modifies this, operationsMap, subscriptionsMap
      ensures Valid()
      ensures View() == Next(child, old(View()), Receive(p))
    {
      if operationsMap.Contains(key) {
        if timer == Some(Waiting) {
          timer := Some(Aborted);
        }
        CallDropped(operationsMap.operations[key]);
        operationsMap.Erase(key);
        return;
      }
      if subscriptionsMap.Contains(key) {
        HandlePackage(p);
      }
    }

    /** Erase the subscription's entry and call the drop callback. */
    method CallDropped(error: Error)
      requires Valid()
      modifies this`drops, subscriptionsMap
      ensures Valid()
      ensures View() == old(View()).(registered := false, drops := old(drops) + [error])
    {
      subscriptionsMap.Erase(key);
      drops := drops + [error];
    }

    method TimerFires(failed: bool)
      requires Valid() && timer == Some(Waiting)
      modifies this`timer
      ensures Valid()
      ensures View() == Next(child, old(View()), if failed then Fail else Expire)
    {
      timer := Some(if failed then Faulted else Expired);
    }

    /** The unsubscribe operation's handler called with an error, and its key erased. */
    method EndWith(error: Error)
      requires Valid() && error != Unsubscribed
      modifies this, operationsMap
      ensures Valid()
      ensures View() == OnOpError(old(View()), error)
    {
      UnsubscribeWith(error);
      operationsMap.Erase(key);
    }

    /** The timer completion of the unsubscribe operation. */
    method OnTimer()
      requires Valid() && Enabled(View(), RunTimer)
      modifies this, operationsMap
      ensures Valid()
      ensures View() == Next(child, old(View()), RunTimer)
    {
      var completion := timer.value;
      timer := Some(Finished);
      match completion {
        case Expired =>
          if operationsMap.Lookup(key).None? {
            threw := threw + 1;
            return;
          }
          EndWith(OperationTimeout);
        case Faulted =>
          if operationsMap.Contains(key) {
            EndWith(TimerFailure);
          }
        case _ =>
      }
    }

    method OnPosted()
      requires Valid() && posted != []
      modifies this, subscriptionsMap
      ensures Valid()
      ensures View() == Next(child, old(View()), RunPosted)
    {
      var error := posted[0];
      posted := posted[1..];
      CallDropped(error);
    }

    method Perform(step: Step)
      requires Valid() && Enabled(View(), step)
      modifies this, operationsMap, subscriptionsMap
      ensures Valid() && View() == Next(child, old(View()), step)
    {
      match step {
        case Receive(p) => OnReceived(p);
        case CallUnsubscribe => UserCall();
        case Expire => TimerFires(false);
        case Fail => TimerFires(true);
        case RunTimer => OnTimer();
        case RunPosted => OnPosted();
      }
    }
  }

  /** Every run drives the object through the states of the protocol, so it is where its story says. */
  method Run(child: Child, key: Guid, steps: seq<Step>) returns (subscription: SubscriptionBase)
    requires Legal(child, STARTED, steps)
    ensures subscription.Valid() && subscription.View() == Exec(child, STARTED, steps)
    ensures Agrees(subscription.View(), StoryOf(child, BEGINNING, steps))
    ensures |subscription.drops| <= 1
    ensures subscription.drops != [] ==> subscription.key !in subscription.subscriptionsMap.operations
  {
    subscription := new SubscriptionBase(child, key);
    for i := 0 to |steps|
      invariant fresh(subscription) && fresh(subscription.operationsMap) && fresh(subscription.subscriptionsMap)
      invariant subscription.Valid() && subscription.child == child
      invariant Legal(child, subscription.View(), steps[i..])
      invariant Exec(child, subscription.View(), steps[i..]) == Exec(child, STARTED, steps)
    {
      assert steps[i..][1..] == steps[i + 1..];
      subscription.Perform(steps[i]);
    }
    StoryIs(child, steps);
    DropAccounting(child, steps);
  }
}
