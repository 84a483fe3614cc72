/** The per-tool circuit breaker of mcp/circuit.go. Instants and durations are
    nanoseconds; each call carries the instant its single clock reading returns. */
module Circuit {
  import opened Basics

  datatype State = Closed | Open | HalfOpen

  datatype Outcome = Accepted | RejectedOpen | RejectedHalfOpenLimit

  datatype Reason =
    | ThresholdExceeded
    | ProbeFailed
    | ProbeSucceeded
    | OpenDurationElapsed
    | ManualReset

  datatype Transition = Transition(from: State, to: State, reason: Reason, failureCount: int)

  datatype Config = Config(failureThreshold: int, openDuration: int, halfOpenMaxRequests: int)

  const DEFAULT_FAILURE_THRESHOLD := 5
  const DEFAULT_OPEN_DURATION := 30_000_000_000
  const DEFAULT_HALF_OPEN_MAX_REQUESTS := 1

  predicate Sane(c: Config) {
    c.failureThreshold > 0 && c.openDuration > 0 && c.halfOpenMaxRequests > 0
  }

  /** Replaces every non-positive field, and no other, by its default. */
  function Sanitize(c: Config): (r: Config)
    ensures Sane(r)
    ensures r == c <==> Sane(c)
    ensures c.failureThreshold > 0 ==> r.failureThreshold == c.failureThreshold
    ensures c.openDuration > 0 ==> r.openDuration == c.openDuration
    ensures c.halfOpenMaxRequests > 0 ==> r.halfOpenMaxRequests == c.halfOpenMaxRequests
    ensures c.failureThreshold <= 0 ==> r.failureThreshold == 5
    ensures c.openDuration <= 0 ==> r.openDuration == 30_000_000_000
    ensures c.halfOpenMaxRequests <= 0 ==> r.halfOpenMaxRequests == 1
  {
    Config(
      if c.failureThreshold <= 0 then DEFAULT_FAILURE_THRESHOLD else c.failureThreshold,
      if c.openDuration <= 0 then DEFAULT_OPEN_DURATION else c.openDuration,
      if c.halfOpenMaxRequests <= 0 then DEFAULT_HALF_OPEN_MAX_REQUESTS else c.halfOpenMaxRequests)
  }

  /** The fields of a breaker at one instant. */
  datatype Breaker = Breaker(
    config: Config,
    state: State,
    failureCount: int,
    openedAt: int,
    halfOpenInFlight: int)

  datatype Op = Acquire | Peek | OnSuccess | OnFailure | Reset

  datatype Call = Call(op: Op, at: int)

  datatype Result = Result(after: Breaker, outcome: Option<Outcome>, transition: Option<Transition>)

  function New(c: Config): Breaker {
    Breaker(Sanitize(c), Closed, 0, 0, 0)
  }

  function Enter(b: Breaker, target: State, at: int): Breaker {
    match target
    case Open => b.(state := Open, openedAt := at, halfOpenInFlight := 0)
    case HalfOpen => b.(state := HalfOpen, halfOpenInFlight := 0)
    case Closed => b.(state := Closed, failureCount := 0, halfOpenInFlight := 0)
  }

  function Move(b: Breaker, target: State, reason: Reason, at: int): Result {
    Result(Enter(b, target, at), None, Some(Transition(b.state, target, reason, b.failureCount)))
  }

  function Stay(b: Breaker): Result {
    Result(b, None, None)
  }

  function MaybeHalfOpen(b: Breaker, at: int): Result {
    if b.state != Open || at - b.openedAt < b.config.openDuration then Stay(b)
    else Move(b, HalfOpen, OpenDurationElapsed, at)
  }

  function AcquireStep(b: Breaker, at: int): Result {
    var r := MaybeHalfOpen(b, at);
    match r.after.state
    case Closed => r.(outcome := Some(Accepted))
    case HalfOpen =>
      if r.after.halfOpenInFlight >= b.config.halfOpenMaxRequests then
        r.(outcome := Some(RejectedHalfOpenLimit))
      else
        r.(after := r.after.(halfOpenInFlight := r.after.halfOpenInFlight + 1), outcome := Some(Accepted))
    case Open => r.(outcome := Some(RejectedOpen))
  }

  function OnSuccessStep(b: Breaker, at: int): Result {
    match b.state
    case HalfOpen => Move(b, Closed, ProbeSucceeded, at)
    case Closed => Stay(b.(failureCount := 0))
    case Open => Stay(b)
  }

  function OnFailureStep(b: Breaker, at: int): Result {
    match b.state
    case HalfOpen => Move(b, Open, ProbeFailed, at)
    case Closed =>
      var counted := b.(failureCount := b.failureCount + 1);
      if counted.failureCount >= b.config.failureThreshold then Move(counted, Open, ThresholdExceeded, at)
      else Stay(counted)
    case Open => Stay(b)
  }

  function ResetStep(b: Breaker, at: int): Result {
    if b.state == Closed then Stay(b.(failureCount := 0, halfOpenInFlight := 0))
    else Move(b, Closed, ManualReset, at)
  }

  function Step(b: Breaker, c: Call): Result {
    match c.op
    case Acquire => AcquireStep(b, c.at)
    case Peek => MaybeHalfOpen(b, c.at)
    case OnSuccess => OnSuccessStep(b, c.at)
    case OnFailure => OnFailureStep(b, c.at)
    case Reset => ResetStep(b, c.at)
  }

  /** The breaker after a whole history of calls. */
  function After(c: Config, calls: seq<Call>): Breaker {
    if calls == [] then New(c) else Step(After(c, Front(calls)), Last(calls)).after
  }

  predicate NonDecreasing(calls: seq<Call>) {
    forall i, j :: 0 <= i < j < |calls| ==> calls[i].at <= calls[j].at
  }

  // ---- What a reachable breaker looks like ------------------------------------

  /** Invariant of every reachable breaker. */
  predicate Wf(b: Breaker) {
    && Sane(b.config)
    && (b.state == Closed ==> 0 <= b.failureCount < b.config.failureThreshold)
    && (b.state != Closed ==> b.failureCount == b.config.failureThreshold)
    && (b.state != HalfOpen ==> b.halfOpenInFlight == 0)
    && 0 <= b.halfOpenInFlight <= b.config.halfOpenMaxRequests
  }

  /** The edges of the state diagram, with the reasons that may label them. */
  predicate Legal(t: Transition) {
    || (t.from == Closed && t.to == Open && t.reason == ThresholdExceeded)
    || (t.from == Open && t.to == HalfOpen && t.reason == OpenDurationElapsed)
    || (t.from == HalfOpen && t.to == Open && t.reason == ProbeFailed)
    || (t.from == HalfOpen && t.to == Closed && t.reason == ProbeSucceeded)
    || (t.from != Closed && t.to == Closed && t.reason == ManualReset)
  }

  /** A call keeps the invariant and returns a transition exactly when the state moved;
      that transition is a legal edge and carries the full threshold. */
  lemma StepKeepsWf(b: Breaker, c: Call)
    requires Wf(b)
    ensures var r := Step(b, c);
      && Wf(r.after)
      && r.after.config == b.config
      && (r.transition.Some? <==> r.after.state != b.state)
      && (r.transition.Some? ==>
        && Legal(r.transition.value)
        && r.transition.value.from == b.state
        && r.transition.value.to == r.after.state
        && r.transition.value.failureCount == b.config.failureThreshold)
  {
  }

  lemma {:induction false} Reachable(c: Config, calls: seq<Call>)
    ensures Wf(After(c, calls))
    ensures After(c, calls).config == Sanitize(c)
  {
    if calls != [] {
      Reachable(c, Front(calls));
      StepKeepsWf(After(c, Front(calls)), Last(calls));
    }
  }

  // ---- The failure counter is a function of the history -----------------------

  /** OnFailure calls since the last OnSuccess or Reset. */
  function TrailingFailures(calls: seq<Call>): nat {
    if calls == [] then 0
    else match Last(calls).op
      case OnSuccess => 0
      case Reset => 0
      case OnFailure => TrailingFailures(Front(calls)) + 1
      case _ => TrailingFailures(Front(calls))
  }

  /** In Closed the counter is the run of failures since the last success or reset,
      and is below the threshold; in Open and HalfOpen it is the threshold exactly. */
  lemma {:induction false} FailureCountIsHistory(c: Config, calls: seq<Call>)
    ensures var b := After(c, calls);
      if b.state == Closed then
        b.failureCount == TrailingFailures(calls) < Sanitize(c).failureThreshold
      else
        b.failureCount == Sanitize(c).failureThreshold
  {
    Reachable(c, calls);
    if calls != [] {
      FailureCountIsHistory(c, Front(calls));
    }
  }

  /** A closed breaker opens on exactly the failure that completes a run of
      FailureThreshold failures with no success or reset among them. */
  lemma OpensExactlyAtThreshold(c: Config, calls: seq<Call>, call: Call)
    requires After(c, calls).state == Closed
    ensures After(c, calls + [call]).state != Closed <==>
      call.op == OnFailure && TrailingFailures(calls + [call]) == Sanitize(c).failureThreshold
  {
    assert Front(calls + [call]) == calls;
    FailureCountIsHistory(c, calls);
    Reachable(c, calls);
  }

  // ---- Where each call leads --------------------------------------------------

  /** A tripped breaker closes on exactly a reset, or on a success reported half-open. */
  lemma ClosesExactlyBy(c: Config, calls: seq<Call>, call: Call)
    requires After(c, calls).state != Closed
    ensures After(c, calls + [call]).state == Closed <==>
      call.op == Reset || (After(c, calls).state == HalfOpen && call.op == OnSuccess)
  {
    assert Front(calls + [call]) == calls;
  }

  /** A half-open breaker opens again on exactly a reported failure, and its open period
      starts over at that instant. */
  lemma ReopensExactlyBy(c: Config, calls: seq<Call>, call: Call)
    requires After(c, calls).state == HalfOpen
    ensures After(c, calls + [call]).state == Open <==> call.op == OnFailure
    ensures call.op == OnFailure ==> After(c, calls + [call]).openedAt == call.at
  {
    assert Front(calls + [call]) == calls;
  }

  /** An open breaker turns half-open on exactly an Acquire or a Peek that finds OpenDuration
      elapsed. */
  lemma HalfOpensExactlyBy(c: Config, calls: seq<Call>, call: Call)
    requires After(c, calls).state == Open
    ensures After(c, calls + [call]).state == HalfOpen <==>
      (call.op == Acquire || call.op == Peek) && call.at >= After(c, calls).openedAt + Sanitize(c).openDuration
  {
    assert Front(calls + [call]) == calls;
    Reachable(c, calls);
  }

  /** The reason a transition carries is fixed by the call that causes it and the state it
      leaves. */
  lemma ReasonExactly(c: Config, calls: seq<Call>, call: Call)
    requires Step(After(c, calls), call).transition.Some?
    ensures var t := Step(After(c, calls), call).transition.value;
      && t.from == After(c, calls).state && t.to == After(c, calls + [call]).state
      && (t.reason == ProbeSucceeded <==> call.op == OnSuccess)
      && (t.reason == ManualReset <==> call.op == Reset)
      && (t.reason == OpenDurationElapsed <==> call.op == Acquire || call.op == Peek)
      && (t.reason == ProbeFailed <==> call.op == OnFailure && t.from == HalfOpen)
      && (t.reason == ThresholdExceeded <==> call.op == OnFailure && t.from == Closed)
  {
    assert Front(calls + [call]) == calls;
    Reachable(c, calls);
  }

  /** What an Acquire is told: open while the breaker still is, the limit when the half-open
      slots were taken, and otherwise accepted. */
  lemma OutcomeExactly(c: Config, calls: seq<Call>, at: int)
    ensures var b := After(c, calls);
      var r := Step(b, Call(Acquire, at));
      && (r.outcome == Some(RejectedOpen) <==>
            b.state == Open && at < b.openedAt + Sanitize(c).openDuration)
      && (r.outcome == Some(RejectedHalfOpenLimit) <==>
            b.state == HalfOpen && b.halfOpenInFlight == Sanitize(c).halfOpenMaxRequests)
      && r.outcome.Some?
  {
    Reachable(c, calls);
  }

  /** Only an Acquire has an outcome. */
  lemma OnlyAcquireAnswers(b: Breaker, call: Call)
    ensures Step(b, call).outcome.Some? <==> call.op == Acquire
  {
  }

  // ---- Open lasts OpenDuration ------------------------------------------------

  predicate OpensAt(c: Config, calls: seq<Call>, j: int)
    requires 0 <= j < |calls|
  {
    After(c, calls[..j]).state != Open && After(c, calls[..j + 1]).state == Open
  }

  /** Between an opening and its deadline, without a reset, the breaker stays open. */
  lemma {:induction false} StaysOpen(c: Config, calls: seq<Call>, j: int, i: int)
    requires 0 <= j < i <= |calls| && OpensAt(c, calls, j)
    requires forall k :: j < k < i ==> calls[k].op != Reset
    requires forall k :: j < k < i ==> calls[k].at < calls[j].at + Sanitize(c).openDuration
    ensures var b := After(c, calls[..i]);
      b.state == Open && b.openedAt == calls[j].at && b.config == Sanitize(c)
  {
    Reachable(c, calls[..i]);
    assert Front(calls[..i]) == calls[..i - 1];
    if i > j + 1 {
      StaysOpen(c, calls, j, i - 1);
    } else {
      Reachable(c, calls[..j]);
    }
  }

  /** The first Acquire that could find the deadline passed is accepted if and only
      if it has passed. */
  lemma AcceptsExactlyFromDeadline(c: Config, calls: seq<Call>, j: int, i: int)
    requires 0 <= j < i < |calls| && OpensAt(c, calls, j)
    requires forall k :: j < k < i ==> calls[k].op != Reset
    requires forall k :: j < k < i ==> calls[k].at < calls[j].at + Sanitize(c).openDuration
    requires calls[i].op == Acquire
    ensures Step(After(c, calls[..i]), calls[i]).outcome ==
      Some(if calls[i].at >= calls[j].at + Sanitize(c).openDuration then Accepted else RejectedOpen)
  {
    StaysOpen(c, calls, j, i);
    Reachable(c, calls[..i]);
  }

  /** Under a clock that never runs backwards, an Acquire earlier than
      OpenDuration after an opening fails fast unless a Reset intervened. */
  lemma FailsFastWhileOpen(c: Config, calls: seq<Call>, j: int, i: int)
    requires NonDecreasing(calls)
    requires 0 <= j < i < |calls| && OpensAt(c, calls, j)
    requires forall k :: j < k < i ==> calls[k].op != Reset
    requires calls[i].op == Acquire && calls[i].at < calls[j].at + Sanitize(c).openDuration
    ensures Step(After(c, calls[..i]), calls[i]).outcome == Some(RejectedOpen)
  {
    AcceptsExactlyFromDeadline(c, calls, j, i);
  }

  // ---- Half-open episodes -----------------------------------------------------

  predicate AcceptedAt(c: Config, calls: seq<Call>, k: int)
    requires 0 <= k < |calls|
  {
    Step(After(c, calls[..k]), calls[k]).outcome == Some(Accepted)
  }

  /** Accepted Acquire calls among calls[i..j]. */
  function AcceptedBetween(c: Config, calls: seq<Call>, i: int, j: int): nat
    requires 0 <= i <= j <= |calls|
    decreases j
  {
    if i == j then 0
    else AcceptedBetween(c, calls, i, j - 1) + (if AcceptedAt(c, calls, j - 1) then 1 else 0)
  }

  /** calls[i..j] is a half-open episode seen so far: call i entered HalfOpen and no
      later one has left it. */
  predicate Episode(c: Config, calls: seq<Call>, i: int, j: int)
    requires 0 <= i < j <= |calls|
  {
    && After(c, calls[..i]).state != HalfOpen
    && forall k :: i < k <= j ==> After(c, calls[..k]).state == HalfOpen
  }

  /** A call that leaves the breaker half-open counts itself if it was accepted, from zero if
      it is the one that entered the state. */
  lemma EpisodeStep(b: Breaker, c: Call)
    requires Wf(b) && Step(b, c).after.state == HalfOpen
    ensures Step(b, c).after.halfOpenInFlight ==
      (if b.state == HalfOpen then b.halfOpenInFlight else 0) +
      (if Step(b, c).outcome == Some(Accepted) then 1 else 0)
  {
  }

  /** The slot counter is exactly the number of calls accepted in this episode,
      and the episode accepts at most HalfOpenMaxRequests. */
  lemma {:induction false} ProbeSlotsAreAcceptedCalls(c: Config, calls: seq<Call>, i: int, j: int)
    requires 0 <= i < j <= |calls| && Episode(c, calls, i, j)
    ensures After(c, calls[..j]).halfOpenInFlight == AcceptedBetween(c, calls, i, j)
    ensures AcceptedBetween(c, calls, i, j) <= Sanitize(c).halfOpenMaxRequests
    decreases j
  {
    Reachable(c, calls[..j]);
    Reachable(c, calls[..j - 1]);
    var before := After(c, calls[..j - 1]);
    AfterNext(c, calls, j);
    EpisodeStep(before, calls[j - 1]);
    if j > i + 1 {
      ProbeSlotsAreAcceptedCalls(c, calls, i, j - 1);
      assert before.state == HalfOpen;
    }
  }

  lemma AfterNext(c: Config, calls: seq<Call>, j: int)
    requires 0 < j <= |calls|
    ensures After(c, calls[..j]) == Step(After(c, calls[..j - 1]), calls[j - 1]).after
  {
    assert Front(calls[..j]) == calls[..j - 1];
  }

  /** Within an episode an Acquire is accepted exactly while fewer than
      HalfOpenMaxRequests have been, whatever the clock says. */
  lemma AcceptsExactlyWhileSlotFree(c: Config, calls: seq<Call>, i: int, j: int)
    requires 0 <= i < j < |calls| && Episode(c, calls, i, j) && calls[j].op == Acquire
    ensures AcceptedAt(c, calls, j) <==> AcceptedBetween(c, calls, i, j) < Sanitize(c).halfOpenMaxRequests
  {
    ProbeSlotsAreAcceptedCalls(c, calls, i, j);
    Reachable(c, calls[..j]);
  }

  /** Only a reported outcome or a reset ends an episode. */
  lemma EpisodeEndsByReportOrReset(c: Config, calls: seq<Call>, call: Call)
    requires After(c, calls).state == HalfOpen
    ensures After(c, calls + [call]).state != HalfOpen <==>
      call.op == OnSuccess || call.op == OnFailure || call.op == Reset
  {
    assert Front(calls + [call]) == calls;
  }

  // ---- The breaker itself -----------------------------------------------------

  /** The object: its methods update the fields in place and together behave as Step. */
  class CircuitBreaker {
    const config: Config
    var state: State
    var failureCount: int
    var openedAt: int
    var halfOpenInFlight: int

    ghost function View(): Breaker
      reads this
    {
      Breaker(config, state, failureCount, openedAt, halfOpenInFlight)
    }

    constructor (c: Config)
      ensures View() == New(c)
    {
      config := Sanitize(c);
      state := Closed;
      failureCount := 0;
      openedAt := 0;
      halfOpenInFlight := 0;
    }

    method DoPeek(now: int) returns (current: State, transition: Option<Transition>)
      modifies this
      ensures View() == Step(old(View()), Call(Peek, now)).after
      ensures transition == Step(old(View()), Call(Peek, now)).transition
      ensures current == state
    {
      transition := DoMaybeHalfOpen(now);
      current := state;
    }

    method DoAcquire(now: int) returns (outcome: Outcome, transition: Option<Transition>)
      modifies this
      ensures View() == Step(old(View()), Call(Acquire, now)).after
      ensures Some(outcome) == Step(old(View()), Call(Acquire, now)).outcome
      ensures transition == Step(old(View()), Call(Acquire, now)).transition
    {
      transition := DoMaybeHalfOpen(now);
      match state {
        case Closed =>
          outcome := Accepted;
        case HalfOpen =>
          if halfOpenInFlight >= config.halfOpenMaxRequests {
            outcome := RejectedHalfOpenLimit;
          } else {
            halfOpenInFlight := halfOpenInFlight + 1;
            outcome := Accepted;
          }
        case Open =>
          outcome := RejectedOpen;
      }
    }

    method DoOnSuccess(now: int) returns (transition: Option<Transition>)
      modifies this
      ensures View() == Step(old(View()), Call(OnSuccess, now)).after
      ensures transition == Step(old(View()), Call(OnSuccess, now)).transition
    {
      transition := None;
      match state {
        case HalfOpen =>
          var t := TransitionTo(Closed, ProbeSucceeded, now);
          transition := Some(t);
        case Closed =>
          failureCount := 0;
        case Open =>
      }
    }

    method DoOnFailure(now: int) returns (transition: Option<Transition>)
      modifies this
      ensures View() == Step(old(View()), Call(OnFailure, now)).after
      ensures transition == Step(old(View()), Call(OnFailure, now)).transition
    {
      transition := None;
      match state {
        case HalfOpen =>
          var t := TransitionTo(Open, ProbeFailed, now);
          transition := Some(t);
        case Closed =>
          failureCount := failureCount + 1;
          if failureCount >= config.failureThreshold {
            var t := TransitionTo(Open, ThresholdExceeded, now);
            transition := Some(t);
          }
        case Open =>
      }
    }

    method DoReset(now: int) returns (transition: Option<Transition>)
      modifies this
      ensures View() == Step(old(View()), Call(Reset, now)).after
      ensures transition == Step(old(View()), Call(Reset, now)).transition
    {
      if state == Closed {
        failureCount := 0;
        halfOpenInFlight := 0;
        transition := None;
      } else {
        var t := TransitionTo(Closed, ManualReset, now);
        transition := Some(t);
      }
    }

    method DoMaybeHalfOpen(now: int) returns (transition: Option<Transition>)
      modifies this
      ensures View() == MaybeHalfOpen(old(View()), now).after
      ensures transition == MaybeHalfOpen(old(View()), now).transition
    {
      if state != Open || now - openedAt < config.openDuration {
        transition := None;
      } else {
        var t := TransitionTo(HalfOpen, OpenDurationElapsed, now);
        transition := Some(t);
      }
    }

    method TransitionTo(target: State, reason: Reason, now: int) returns (t: Transition)
      modifies this
      ensures View() == Enter(old(View()), target, now)
      ensures t == Transition(old(state), target, reason, old(failureCount))
    {
      t := Transition(state, target, reason, failureCount);
      state := target;
      match target {
        case Open =>
          openedAt := now;
          halfOpenInFlight := 0;
        case HalfOpen =>
          halfOpenInFlight := 0;
        case Closed =>
          failureCount := 0;
          halfOpenInFlight := 0;
      }
    }
  }
}
