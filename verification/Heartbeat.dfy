/** The heartbeat watchdog in time: timers fire at their deadlines, packages arrive in between. */
module HeartbeatSpec {
  import opened Seqs

  /** `heartbeat_interval` and `heartbeat_timeout`. */
  datatype Settings = Settings(interval: nat, timeout: nat)

  /** A moment and the number of packages received up to it. */
  datatype Mark = Mark(time: nat, packages: nat)

  /** `packageNo` is the connection's wrapping counter, `lastPackageNo` the `int` the watchdog keeps of
      it, `deadline` the armed timer. The rest is history: `packages` counts all arrivals and `unseen`
      those since the last check, `heard` is the time of the last one (at first, of the start),
      `requests` and `stage` mark the heartbeat requests and the last entry of an interval stage, and
      `closedAt` is when the watchdog closed the connection. */
  datatype State = State(
    now: nat, packageNo: nat, lastPackageNo: int, intervalStage: bool, deadline: Option<nat>, open: bool,
    packages: nat, unseen: nat, heard: nat, requests: seq<Mark>, stage: Option<Mark>, closedAt: Option<nat>)

  /** `initiate`: what the watchdog does when it looks at the connection. */
  function Check(cfg: Settings, s: State): State {
    var here := Mark(s.now, s.packages);
    var t := s.(unseen := 0);
    if !s.open then s.(deadline := None)
    else if ToUint32(s.lastPackageNo) != s.packageNo then
      t.(lastPackageNo := ToInt32(s.packageNo), intervalStage := true, stage := Some(here),
         deadline := Some(s.now + cfg.interval))
    else if s.intervalStage then
      t.(requests := s.requests + [here], intervalStage := false, deadline := Some(s.now + cfg.timeout))
    else t.(open := false, closedAt := Some(s.now), deadline := None)
  }

  /** The watchdog is built on an open connection that has received `packages` packages, and looks at
      it at once. */
  function Init(cfg: Settings, now: nat, packages: nat): State {
    var no := packages % TWO_TO_32;
    Check(cfg, State(now, no, ToInt32(no), true, None, true, packages, 0, now, [], None, None))
  }

  datatype Step = Arrive(time: nat) | Fire | PeerCloses(time: nat)

  predicate Between(s: State, time: nat) {
    s.now <= time && (s.deadline.Some? ==> time <= s.deadline.value)
  }

  predicate Enabled(s: State, step: Step) {
    match step
    case Arrive(time) => s.open && Between(s, time)
    case Fire => s.deadline.Some?
    case PeerCloses(time) => s.open && Between(s, time)
  }

  function Next(cfg: Settings, s: State, step: Step): State
    requires Enabled(s, step)
  {
    match step
    case Arrive(time) =>
      s.(now := time, heard := time, packageNo := ToUint32(s.packageNo + 1), packages := s.packages + 1,
         unseen := s.unseen + 1)
    case Fire => Check(cfg, s.(now := s.deadline.value))
    case PeerCloses(time) => s.(now := time, open := false)
  }

  predicate Legal(cfg: Settings, s: State, steps: seq<Step>)
    decreases |steps|
  {
    steps == [] || (Enabled(s, steps[0]) && Legal(cfg, Next(cfg, s, steps[0]), steps[1..]))
  }

  function Exec(cfg: Settings, s: State, steps: seq<Step>): State
    requires Legal(cfg, s, steps)
    decreases |steps|
  {
    if steps == [] then s else Exec(cfg, Next(cfg, s, steps[0]), steps[1..])
  }

  /** How long silence can last before it is noticed. */
  function Patience(cfg: Settings): nat { Max(cfg.interval, cfg.timeout) + cfg.interval + cfg.timeout }

  /** Time: how late the armed timer can be after the last package, by what the watchdog has seen. */
  ghost predicate Timely(cfg: Settings, s: State) {
    && s.heard <= s.now
    && (s.open ==> s.deadline.Some?)
    && (s.deadline.Some? ==> s.now <= s.deadline.value <= s.now + Max(cfg.interval, cfg.timeout))
    && (s.open ==>
          s.deadline.value <= s.heard + Max(cfg.interval, cfg.timeout)
            + (if s.unseen > 0 then 0 else if s.intervalStage then cfg.interval else cfg.interval + cfg.timeout))
    && (s.closedAt.Some? ==> !s.open && s.closedAt.value <= s.heard + Patience(cfg))
  }

  /** Counters: the wrapped ones follow the real ones. */
  ghost predicate Counted(s: State) {
    && s.packageNo == s.packages % TWO_TO_32
    && s.unseen <= s.packages
    && ToUint32(s.lastPackageNo) == (s.packages - s.unseen) % TWO_TO_32
  }

  function Last(s: State): Mark
    requires s.requests != []
  {
    s.requests[|s.requests| - 1]
  }

  /** Requests: when the last one was, and what preceded it. */
  ghost predicate Requested(cfg: Settings, s: State) {
    && s.requests != []
    && (s.intervalStage ==>
          && s.stage.Some? && Last(s).packages < s.stage.value.packages == s.packages - s.unseen)
    && (s.intervalStage && s.deadline.Some? ==> s.deadline.value == s.stage.value.time + cfg.interval)
    && (!s.intervalStage && s.deadline.Some? ==>
          s.deadline.value == Last(s).time + cfg.timeout && Last(s).packages == s.packages - s.unseen)
    && (!s.intervalStage ==> FollowsStage(cfg, s))
    && (forall i :: 0 <= i < |s.requests| - 1 ==> s.requests[i].packages < s.requests[i + 1].packages)
  }

  /** The last request is the first one, or came a whole interval after the entry of the interval
      stage, the wrapped counter standing still in between. */
  ghost predicate FollowsStage(cfg: Settings, s: State)
    requires s.requests != []
  {
    if s.stage.None? then |s.requests| == 1
    else
      && Last(s).time == s.stage.value.time + cfg.interval
      && s.stage.value.packages <= Last(s).packages
      && (Last(s).packages - s.stage.value.packages) % TWO_TO_32 == 0
  }

  ghost predicate Inv(cfg: Settings, s: State) {
    Timely(cfg, s) && Counted(s) && Requested(cfg, s)
  }

  lemma SameResidue(a: nat, b: nat)
    requires b <= a
    ensures a % TWO_TO_32 == b % TWO_TO_32 <==> (a - b) % TWO_TO_32 == 0
  {
  }

  lemma ArriveInv(cfg: Settings, s: State, time: nat)
    requires Inv(cfg, s) && Enabled(s, Arrive(time))
    ensures Inv(cfg, Next(cfg, s, Arrive(time)))
  {
  }

  lemma FireInv(cfg: Settings, s: State)
    requires Inv(cfg, s) && Enabled(s, Fire)
    ensures Inv(cfg, Next(cfg, s, Fire))
  {
    SameResidue(s.packages, s.packages - s.unseen);
  }

  lemma InvInit(cfg: Settings, now: nat, packages: nat)
    ensures Inv(cfg, Init(cfg, now, packages))
  {
  }

  lemma {:induction false} RunInv(cfg: Settings, s: State, steps: seq<Step>)
    requires Inv(cfg, s) && Legal(cfg, s, steps)
    ensures Inv(cfg, Exec(cfg, s, steps))
    decreases |steps|
  {
    if steps != [] {
      match steps[0] {
        case Arrive(time) => ArriveInv(cfg, s, time);
        case Fire => FireInv(cfg, s);
        case PeerCloses(_) =>
      }
      RunInv(cfg, Next(cfg, s, steps[0]), steps[1..]);
    }
  }

  ghost predicate Reachable(cfg: Settings, s: State) {
    exists now: nat, packages: nat, steps ::
      Legal(cfg, Init(cfg, now, packages), steps) && Exec(cfg, Init(cfg, now, packages), steps) == s
  }

  lemma ReachableInv(cfg: Settings, s: State)
    requires Reachable(cfg, s)
    ensures Inv(cfg, s)
  {
    var now: nat, packages: nat, steps :|
      Legal(cfg, Init(cfg, now, packages), steps) && Exec(cfg, Init(cfg, now, packages), steps) == s;
    InvInit(cfg, now, packages);
    RunInv(cfg, Init(cfg, now, packages), steps);
  }

  /** Detection: if the last package arrived at `heard`, no open connection lives past `heard` plus
      the patience, and one closed by the watchdog was closed by then. */
  lemma Detection(cfg: Settings, s: State)
    requires Reachable(cfg, s)
    ensures s.open ==> s.now <= s.heard + Patience(cfg) && Enabled(s, Fire)
    ensures s.closedAt.Some? ==> s.closedAt.value <= s.heard + Patience(cfg)
  {
    ReachableInv(cfg, s);
  }

  // ---- what a run amounts to, read off its steps ----

  /** How many packages arrive. */
  function Arrivals(steps: seq<Step>): nat {
    if steps == [] then 0 else (if steps[0].Arrive? then 1 else 0) + Arrivals(steps[1..])
  }

  /** When the last one arrives, or `since` if none does. */
  function LastArrival(since: nat, steps: seq<Step>): nat
    decreases |steps|
  {
    if steps == [] then since
    else LastArrival(if steps[0].Arrive? then steps[0].time else since, steps[1..])
  }

  lemma {:induction false} ArrivalsCounted(cfg: Settings, s: State, steps: seq<Step>)
    requires Legal(cfg, s, steps)
    ensures var t := Exec(cfg, s, steps);
      t.packages == s.packages + Arrivals(steps) && t.heard == LastArrival(s.heard, steps)
    decreases |steps|
  {
    if steps != [] {
      ArrivalsCounted(cfg, Next(cfg, s, steps[0]), steps[1..]);
    }
  }

  /** Detection, read off the steps: however a run goes, the connection is not open later than the
      patience after the last package, and the watchdog's close comes by then. */
  lemma DetectionOverRuns(cfg: Settings, now: nat, packages: nat, steps: seq<Step>)
    requires Legal(cfg, Init(cfg, now, packages), steps)
    ensures var s := Exec(cfg, Init(cfg, now, packages), steps); var limit := LastArrival(now, steps) + Patience(cfg);
      && s.packages == packages + Arrivals(steps) && s.heard == LastArrival(now, steps)
      && (s.open ==> s.now <= limit) && (s.closedAt.Some? ==> s.closedAt.value <= limit)
  {
    var s := Exec(cfg, Init(cfg, now, packages), steps);
    ArrivalsCounted(cfg, Init(cfg, now, packages), steps);
    assert Reachable(cfg, s);
    Detection(cfg, s);
  }

  /** What a firing timer does: on a closed connection it ends the chain. On an open one, packages since
      the last look, unless a multiple of 2^32, start an interval; else the end of an interval sends a
      request and starts its timeout; else the connection is closed. */
  lemma Look(cfg: Settings, s: State)
    requires Reachable(cfg, s) && Enabled(s, Fire)
    ensures var t := Next(cfg, s, Fire); var heardSome := s.unseen % TWO_TO_32 != 0;
      && t.now == s.deadline.value && t.packages == s.packages && t.heard == s.heard
      && t.open == (s.open && (heardSome || s.intervalStage))
      && t.closedAt == (if s.open && !t.open then Some(t.now) else s.closedAt)
      && t.requests == s.requests + (if s.open && !heardSome && s.intervalStage then [Mark(t.now, s.packages)] else [])
      && t.deadline == (if !t.open then None else Some(t.now + if heardSome then cfg.interval else cfg.timeout))
      && (t.open ==> t.intervalStage == heardSome && t.unseen == 0)
  {
    ReachableInv(cfg, s);
    SameResidue(s.packages, s.packages - s.unseen);
  }

  /** The timer armed when the peer closes still fires, and its firing ends the chain. */
  lemma ClosedFires(cfg: Settings, s: State, time: nat)
    requires Reachable(cfg, s) && Enabled(s, PeerCloses(time))
    ensures var t := Next(cfg, s, PeerCloses(time));
      && !t.open && t.now == time && t.deadline == s.deadline && t.heard == s.heard
      && Enabled(t, Fire) && Next(cfg, t, Fire).deadline == None
  {
    ReachableInv(cfg, s);
  }

  /** Once the peer has closed, no request is sent and the watchdog does not act again: at most one more
      firing ends the chain. */
  lemma {:induction false} ClosedEnds(cfg: Settings, s: State, steps: seq<Step>)
    requires !s.open && Legal(cfg, s, steps)
    ensures var t := Exec(cfg, s, steps);
      && !t.open && t.requests == s.requests && t.closedAt == s.closedAt
      && (s.deadline == None ==> steps == []) && |steps| <= 1 && (steps != [] ==> t.deadline == None)
    decreases |steps|
  {
    if steps != [] {
      ClosedEnds(cfg, Next(cfg, s, steps[0]), steps[1..]);
    }
  }

  lemma Prepend(cfg: Settings, s: State, step: Step, rest: seq<Step>)
    requires Enabled(s, step) && Legal(cfg, Next(cfg, s, step), rest)
    ensures Legal(cfg, s, [step] + rest)
    ensures Exec(cfg, s, [step] + rest) == Exec(cfg, Next(cfg, s, step), rest)
  {
  }

  /** The last three looks at a connection on which packages arrived since the look before. */
  lemma LastLooks(cfg: Settings, s: State) returns (steps: seq<Step>)
    requires Inv(cfg, s) && s.open && 0 < s.unseen < TWO_TO_32
    ensures Legal(cfg, s, steps)
    ensures Exec(cfg, s, steps).closedAt == Some(s.deadline.value + cfg.interval + cfg.timeout)
    ensures Exec(cfg, s, steps).heard == s.heard
  {
    SameResidue(s.packages, s.packages - s.unseen);
    var s1 := Next(cfg, s, Fire);
    var s2 := Next(cfg, s1, Fire);
    Prepend(cfg, s2, Fire, []);
    Prepend(cfg, s1, Fire, [Fire]);
    Prepend(cfg, s, Fire, [Fire] + [Fire]);
    steps := [Fire] + ([Fire] + [Fire]);
  }

  /** The bound cannot be improved, whatever the settings: some run closes exactly then. */
  lemma BoundAttained(cfg: Settings, now: nat, packages: nat) returns (steps: seq<Step>)
    ensures Legal(cfg, Init(cfg, now, packages), steps)
    ensures var s := Exec(cfg, Init(cfg, now, packages), steps);
      s.closedAt == Some(s.heard + Patience(cfg))
  {
    var s := Init(cfg, now, packages);
    InvInit(cfg, now, packages);
    ArriveInv(cfg, s, now);
    var heard := Next(cfg, s, Arrive(now));
    if cfg.interval <= cfg.timeout {
      steps := LastLooks(cfg, heard);
      Prepend(cfg, s, Arrive(now), steps);
      steps := [Arrive(now)] + steps;
    } else {
      SameResidue(heard.packages, heard.packages - heard.unseen);
      FireInv(cfg, heard);
      var seen := Next(cfg, heard, Fire);
      ArriveInv(cfg, seen, seen.now);
      var again := Next(cfg, seen, Arrive(seen.now));
      steps := LastLooks(cfg, again);
      Prepend(cfg, seen, Arrive(seen.now), steps);
      Prepend(cfg, heard, Fire, [Arrive(seen.now)] + steps);
      Prepend(cfg, s, Arrive(now), [Fire] + ([Arrive(seen.now)] + steps));
      steps := [Arrive(now)] + ([Fire] + ([Arrive(seen.now)] + steps));
    }
  }

  /** Soundness: a firing timer closes an open connection exactly when it is a request's, not an
      interval stage's, the timeout has run since that request, and the number of packages received
      since then is a multiple of 2^32. */
  lemma ClosesIff(cfg: Settings, s: State)
    requires Reachable(cfg, s) && s.open && Enabled(s, Fire)
    ensures var t := Next(cfg, s, Fire);
      t.closedAt.Some? <==>
        && s.requests != [] && t.now == Last(s).time + cfg.timeout && !s.intervalStage
        && s.packages >= Last(s).packages && (s.packages - Last(s).packages) % TWO_TO_32 == 0
  {
    ReachableInv(cfg, s);
    SameResidue(s.packages, s.packages - s.unseen);
  }

  /** `n` packages at one moment. */
  function Burst(n: nat, time: nat): seq<Step> {
    if n == 0 then [] else [Arrive(time)] + Burst(n - 1, time)
  }

  /** The state once they have arrived. */
  function Swamped(s: State, n: nat, time: nat): State {
    if n == 0 then s
    else
      s.(now := time, heard := time, packageNo := ToUint32(s.packageNo + n), packages := s.packages + n,
         unseen := s.unseen + n)
  }

  lemma SwampedOneMore(cfg: Settings, s: State, n: nat, time: nat)
    requires n > 0 && Enabled(s, Arrive(time))
    ensures Swamped(Next(cfg, s, Arrive(time)), n - 1, time) == Swamped(s, n, time)
  {
  }

  lemma {:induction false} BurstArrives(cfg: Settings, s: State, n: nat, time: nat, rest: seq<Step>)
    requires s.open && Between(s, time) && Legal(cfg, Swamped(s, n, time), rest)
    ensures Legal(cfg, s, Burst(n, time) + rest)
    ensures Exec(cfg, s, Burst(n, time) + rest) == Exec(cfg, Swamped(s, n, time), rest)
    decreases n
  {
    if n == 0 {
      assert Burst(0, time) + rest == rest;
    } else {
      var tail := Burst(n - 1, time);
      SwampedOneMore(cfg, s, n, time);
      BurstArrives(cfg, Next(cfg, s, Arrive(time)), n - 1, time, rest);
      Assoc([Arrive(time)], tail, rest);
      Prepend(cfg, s, Arrive(time), tail + rest);
    }
  }

  /** The wrap-around does fool it, whatever the settings: 2^32 packages between a request and its
      timeout, the last at the very moment of the timeout, and the connection is closed. */
  lemma WrapCloses(cfg: Settings, now: nat, packages: nat)
    ensures var s := Init(cfg, now, packages); var steps := Burst(TWO_TO_32, now + cfg.timeout) + [Fire];
      && Legal(cfg, s, steps)
      && var t := Exec(cfg, s, steps);
         && t.packages == Last(s).packages + TWO_TO_32
         && t.closedAt == Some(now + cfg.timeout) == Some(t.heard)
  {
    var s, time := Init(cfg, now, packages), now + cfg.timeout;
    var t := Swamped(s, TWO_TO_32, time);
    assert t.packageNo == s.packageNo;
    assert [Fire][1..] == [];
    assert Legal(cfg, t, [Fire]) && Exec(cfg, t, [Fire]) == Next(cfg, t, Fire);
    BurstArrives(cfg, s, TWO_TO_32, time, [Fire]);
  }

  /** The package count when the last interval stage began, or at the start's request. */
  ghost function QuietFrom(s: State): int {
    if s.stage.Some? then s.stage.value.packages
    else if s.requests != [] then s.requests[0].packages
    else 0
  }

  /** With fewer than 2^32 packages since the last interval stage began, the watchdog closes only after
      silence: none arrived in the timeout after its last request, nor in the interval before it,
      unless that request is the one it sent at the start. */
  lemma ClosesAfterSilence(cfg: Settings, s: State)
    requires Reachable(cfg, s) && s.open && Enabled(s, Fire) && Next(cfg, s, Fire).closedAt.Some?
    requires s.packages - QuietFrom(s) < TWO_TO_32
    ensures s.requests != [] && s.packages == Last(s).packages
    ensures s.stage.Some? ==>
              && s.packages == s.stage.value.packages
              && Next(cfg, s, Fire).now == s.stage.value.time + cfg.interval + cfg.timeout
    ensures s.stage.None? ==> |s.requests| == 1 && Next(cfg, s, Fire).now == s.requests[0].time + cfg.timeout
  {
    ReachableInv(cfg, s);
    ClosesIff(cfg, s);
    if s.stage.Some? {
      SameResidue(s.packages, s.stage.value.packages);
      SameResidue(s.packages, Last(s).packages);
      SameResidue(Last(s).packages, s.stage.value.packages);
    }
  }

  /** Any two heartbeat requests are separated by at least one received package. */
  lemma RequestsSeparated(cfg: Settings, s: State, i: nat)
    requires Reachable(cfg, s) && i + 1 < |s.requests|
    ensures s.requests[i].packages < s.requests[i + 1].packages
  {
    ReachableInv(cfg, s);
  }
}

module HeartbeatModule {
  import opened Seqs
  import opened HeartbeatSpec

  class Heartbeat {
    const cfg: Settings
    var now: nat
    var packageNo: nat        // the connection's `unsigned int` counter
    var open: bool            // the connection's socket
    var lastPackageNo: int    // an `int`
    var intervalStage: bool
    var deadline: Option<nat>
    ghost var packages: nat
    ghost var unseen: nat
    ghost var heard: nat
    ghost var requests: seq<Mark>
    ghost var stage: Option<Mark>
    ghost var closedAt: Option<nat>

    ghost function View(): State
      reads this
    {
      State(now, packageNo, lastPackageNo, intervalStage, deadline, open,
            packages, unseen, heard, requests, stage, closedAt)
    }

    constructor (cfg: Settings, now: nat, packages: nat)
      ensures View() == Init(cfg, now, packages) && this.cfg == cfg
    {
      this.cfg, this.now, this.packages := cfg, now, packages;
      packageNo := packages % TWO_TO_32;
      lastPackageNo := ToInt32(packages % TWO_TO_32);
      open, intervalStage, deadline := true, true, None;
      unseen, heard, requests, stage, closedAt := 0, now, [], None, None;
      new;
      Initiate();
    }

    /** `initiate`. */
    method Initiate()
      modifies this
      ensures View() == Check(cfg, old(View()))
    {
      if !open {
        deadline := None;
        return;
      }
      unseen := 0;
      if ToUint32(lastPackageNo) != packageNo {
        lastPackageNo := ToInt32(packageNo);
        intervalStage := true;
        stage := Some(Mark(now, packages));
        deadline := Some(now + cfg.interval);
        return;
      }
      if intervalStage {
        requests := requests + [Mark(now, packages)];
        intervalStage := false;
        deadline := Some(now + cfg.timeout);
      } else {
        open, deadline := false, None;
        closedAt := Some(now);
      }
    }

    method OnTimer()
      requires deadline.Some?
      modifies this
      ensures View() == Next(cfg, old(View()), Fire)
    {
      now := deadline.value;
      Initiate();
    }

    /** The connection counts a received package. */
    method OnPackage(time: nat)
      requires Enabled(View(), Arrive(time))
      modifies this
      ensures View() == Next(cfg, old(View()), Arrive(time))
    {
      now, heard := time, time;
      packageNo := ToUint32(packageNo + 1);
      packages, unseen := packages + 1, unseen + 1;
    }

    /** The peer closes the socket. */
    method OnClosed(time: nat)
      requires Enabled(View(), PeerCloses(time))
      modifies this
      ensures View() == Next(cfg, old(View()), PeerCloses(time))
    {
      now, open := time, false;
    }

    method Perform(step: Step)
      requires Enabled(View(), step)
      modifies this
      ensures View() == Next(cfg, old(View()), step)
    {
      match step {
        case Arrive(time) => OnPackage(time);
        case Fire => OnTimer();
        case PeerCloses(time) => OnClosed(time);
      }
    }
  }

  /** Every run drives the object through the states of the protocol, so an open connection never
      outlives its last package by more than the patience. */
  method Run(cfg: Settings, start: nat, packages: nat, steps: seq<Step>) returns (heartbeat: Heartbeat)
    requires Legal(cfg, Init(cfg, start, packages), steps)
    ensures heartbeat.View() == Exec(cfg, Init(cfg, start, packages), steps)
    ensures heartbeat.packages == packages + Arrivals(steps) && heartbeat.heard == LastArrival(start, steps)
    ensures heartbeat.open ==> heartbeat.now <= LastArrival(start, steps) + Patience(cfg)
  {
    heartbeat := new Heartbeat(cfg, start, packages);
    ghost var first := Init(cfg, start, packages);
    for i := 0 to |steps|
      invariant fresh(heartbeat) && heartbeat.cfg == cfg
      invariant Legal(cfg, heartbeat.View(), steps[i..])
      invariant Exec(cfg, heartbeat.View(), steps[i..]) == Exec(cfg, first, steps)
    {
      assert steps[i..][1..] == steps[i + 1..];
      heartbeat.Perform(steps[i]);
    }
    DetectionOverRuns(cfg, start, packages, steps);
  }
}
