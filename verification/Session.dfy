/** The session grain of internal/runtime/actor/session_grain.go: which executor it owns,
    how it answers invocations, and its one recovery. What the factory and the executors
    return is part of each message's environment. */
module Session {
  import opened Basics

  datatype Status = Success | Failure | Timeout | Denied | Throttled

  datatype Code = TransportFailure | InvalidRequest | Internal | OtherCode

  datatype ExecutionResult = ExecutionResult(status: Status, output: string, err: Option<Code>, duration: nat)

  /** A handle the factory returned, numbered in creation order, with the optional
      interfaces it implements. */
  datatype Executor = Executor(id: nat, streams: bool, resources: bool)

  /** What one look at the factory yields; NoFactory is a missing extension or a nil factory. */
  datatype Creation = NoFactory | CreateError | CreatedNil | Created(streams: bool, resources: bool)

  /** What a call to an executor returns. With err set the result is ignored. */
  datatype Answer = Answer(err: bool, result: Option<ExecutionResult>, elapsed: nat)

  datatype Env = Env(first: Answer, creation: Creation, second: Answer, streamErr: bool)

  datatype Effect =
    | Opened(id: nat)
    | Closed(id: nat)
    | Called(id: nat)
    | Reported(success: bool)

  datatype Grain = Grain(
    toolID: string,
    executor: Option<Executor>,
    streams: nat,
    created: nat,
    log: seq<Effect>)

  datatype Invocation = Invocation(toolID: string, resourceRead: bool)

  datatype Message =
    | Invoke(invocation: Option<Invocation>)
    | InvokeStream(invocation: Option<Invocation>)
    | GetIdentity

  /** Panicked: the handler dereferenced a nil executor, so it neither replied nor reported. */
  datatype Reply =
    | Rejected
    | Answered(result: Option<ExecutionResult>)
    | Streaming(executor: nat)
    | Identity(toolID: string)
    | Panicked

  datatype Step = Step(after: Grain, reply: Reply)

  function Stub(elapsed: nat): ExecutionResult {
    ExecutionResult(Success, "", None, elapsed)
  }

  function Failed(elapsed: nat): ExecutionResult {
    ExecutionResult(Failure, "", Some(Internal), elapsed)
  }

  const UNSUPPORTED := ExecutionResult(Failure, "", Some(InvalidRequest), 0)

  predicate IsTransportFailure(r: Option<ExecutionResult>) {
    r.Some? && r.value.err == Some(TransportFailure)
  }

  /** What the supervisor is told of a result. */
  predicate Good(r: Option<ExecutionResult>) {
    r.Some? && r.value.status == Success && r.value.err == None
  }

  predicate Accepts(g: Grain, m: Message) {
    !m.GetIdentity? && m.invocation.Some? && m.invocation.value.toolID == g.toolID
  }

  // ---- One message ------------------------------------------------------------

  function Emit(g: Grain, e: seq<Effect>): Grain {
    g.(log := g.log + e)
  }

  function CloseOf(e: Option<Executor>): seq<Effect> {
    if e.Some? then [Closed(e.value.id)] else []
  }

  predicate Replaces(c: Creation) {
    c.Created? || c.CreatedNil?
  }

  function Recovered(g: Grain, c: Creation): Grain {
    match c
    case NoFactory => g
    case CreateError => g
    case CreatedNil => Emit(g, CloseOf(g.executor)).(executor := None)
    case Created(s, r) =>
      Emit(g, [Opened(g.created)] + CloseOf(g.executor))
        .(executor := Some(Executor(g.created, s, r)), created := g.created + 1)
  }

  /** The call reaches the executor. */
  predicate Reaches(e: Option<Executor>, inv: Invocation) {
    e.Some? && (inv.resourceRead ==> e.value.resources)
  }

  function CallOf(e: Option<Executor>, inv: Invocation): seq<Effect> {
    if Reaches(e, inv) then [Called(e.value.id)] else []
  }

  /** What dispatch returns; a nil executor can only be asked for a resource. */
  function Dispatched(e: Option<Executor>, inv: Invocation, a: Answer): Answer {
    if inv.resourceRead && !Reaches(e, inv) then Answer(false, Some(UNSUPPORTED), a.elapsed) else a
  }

  predicate NeedsRecovery(a: Answer) {
    a.err || IsTransportFailure(a.result)
  }

  /** The result of the last attempt, as the caller gets it. */
  function Outcome(a: Answer): Option<ExecutionResult> {
    if a.err then Some(Failed(a.elapsed))
    else if a.result.Some? && a.result.value.duration == 0 then Some(a.result.value.(duration := a.elapsed))
    else a.result
  }

  function Finish(g: Grain, r: Option<ExecutionResult>): Step {
    Step(Emit(g, [Reported(Good(r))]), Answered(r))
  }

  function HandleInvoke(g: Grain, inv: Invocation, env: Env): Step {
    if g.executor.None? then Finish(g, Some(Stub(env.first.elapsed)))
    else
      var tried := Emit(g, CallOf(g.executor, inv));
      var a := Dispatched(g.executor, inv, env.first);
      if !NeedsRecovery(a) || !Replaces(env.creation) then Finish(tried, Outcome(a))
      else
        var back := Recovered(tried, env.creation);
        if back.executor.None? && !inv.resourceRead then Step(back, Panicked)
        else
          Finish(Emit(back, CallOf(back.executor, inv)),
                 Outcome(Dispatched(back.executor, inv, env.second)))
  }

  function HandleInvokeStream(g: Grain, env: Env): Step {
    if g.executor.None? then Finish(g, Some(Stub(env.first.elapsed)))
    else
      var tried := Emit(g, [Called(g.executor.value.id)]);
      if !g.executor.value.streams then Finish(tried, Outcome(env.first))
      else if env.streamErr then Finish(tried, Some(Failed(0)))
      else Step(tried.(streams := g.streams + 1), Streaming(g.executor.value.id))
  }

  function Handle(g: Grain, m: Message, env: Env): Step {
    match m
    case GetIdentity => Step(g, Identity(g.toolID))
    case Invoke(_) =>
      if Accepts(g, m) then HandleInvoke(g, m.invocation.value, env) else Step(g, Rejected)
    case InvokeStream(_) =>
      if Accepts(g, m) then HandleInvokeStream(g, env) else Step(g, Rejected)
  }

  /** A nil dependency or an empty tool ID is None; a failed activation leaves no executor. */
  predicate Activates(toolID: Option<string>, c: Creation) {
    toolID.Some? && toolID.value != "" && !c.CreateError?
  }

  function Activated(g: Grain, toolID: string, c: Creation): Grain {
    if c.Created? then
      Emit(g, [Opened(g.created)])
        .(toolID := toolID, executor := Some(Executor(g.created, c.streams, c.resources)), created := g.created + 1)
    else g.(toolID := toolID, executor := None)
  }

  function Deactivated(g: Grain): Grain {
    Emit(g, CloseOf(g.executor)).(executor := None)
  }

  // ---- Legal logs -------------------------------------------------------------

  /** What a log amounts to: whether executors were opened under the numbers 0, 1, 2, ...,
      and closed and called only while open; the executors opened and not closed since; and
      how many openings, calls and reports it has. */
  datatype Ledger = Ledger(legal: bool, open: set<nat>, opens: nat, calls: nat, reports: nat)

  function Entered(l: Ledger, e: Effect): Ledger {
    match e
    case Opened(id) => l.(legal := l.legal && id == l.opens, open := l.open + {id}, opens := l.opens + 1)
    case Closed(id) => l.(legal := l.legal && id in l.open, open := l.open - {id})
    case Called(id) => l.(legal := l.legal && id in l.open, calls := l.calls + 1)
    case Reported(_) => l.(reports := l.reports + 1)
  }

  function Balance(log: seq<Effect>): Ledger {
    if log == [] then Ledger(true, {}, 0, 0, 0) else Entered(Balance(Front(log)), Last(log))
  }

  predicate Legal(log: seq<Effect>) {
    Balance(log).legal
  }

  function OpenIn(log: seq<Effect>): set<nat> {
    Balance(log).open
  }

  function Opens(log: seq<Effect>): nat {
    Balance(log).opens
  }

  function Calls(log: seq<Effect>): nat {
    Balance(log).calls
  }

  function Reports(log: seq<Effect>): nat {
    Balance(log).reports
  }

  function Installed(g: Grain): set<nat> {
    if g.executor.Some? then {g.executor.value.id} else {}
  }

  /** The grain holds the one open executor, if any is open. */
  ghost predicate Owns(g: Grain) {
    Legal(g.log) && Opens(g.log) == g.created && OpenIn(g.log) == Installed(g)
  }

  /** What a legal log means: each created executor was opened once, and is either still
      open and never closed, or was closed exactly once. */
  lemma {:induction false} LegalMeansOnce(log: seq<Effect>, id: nat)
    requires Legal(log)
    ensures multiset(log)[Opened(id)] == if id < Opens(log) then 1 else 0
    ensures multiset(log)[Closed(id)] == if id < Opens(log) && id !in OpenIn(log) then 1 else 0
    ensures id in OpenIn(log) ==> id < Opens(log)
  {
    if log != [] {
      LegalMeansOnce(Front(log), id);
      assert log == Front(log) + [Last(log)];
      if Last(log) == Closed(id) {
        assert id in OpenIn(Front(log));
      }
    }
  }

  lemma BalanceSnoc(log: seq<Effect>, e: Effect)
    ensures Balance(log + [e]) == Entered(Balance(log), e)
  {
    assert Front(log + [e]) == log && Last(log + [e]) == e;
  }

  lemma {:induction false} OpenIsNumbered(log: seq<Effect>, id: nat)
    requires Legal(log) && id in OpenIn(log)
    ensures id < Opens(log)
  {
    LegalMeansOnce(log, id);
  }

  /** The growth of a log over one step. */
  predicate Grew(before: Grain, after: Grain, opens: nat, calls: nat, reports: nat) {
    && |before.log| <= |after.log| && before.log == after.log[..|before.log|]
    && Opens(after.log) == Opens(before.log) + opens
    && Calls(after.log) == Calls(before.log) + calls
    && Reports(after.log) == Reports(before.log) + reports
  }

  lemma CallKeepsOwns(g: Grain, id: nat)
    requires Owns(g) && id in Installed(g)
    ensures Owns(Emit(g, [Called(id)])) && Grew(g, Emit(g, [Called(id)]), 0, 1, 0)
  {
    BalanceSnoc(g.log, Called(id));
  }

  lemma EmptyEmit(g: Grain)
    ensures Emit(g, []) == g
  {
    assert g.log + [] == g.log;
  }

  lemma ReportKeepsOwns(g: Grain, ok: bool)
    requires Owns(g)
    ensures Owns(Emit(g, [Reported(ok)])) && Grew(g, Emit(g, [Reported(ok)]), 0, 0, 1)
  {
    BalanceSnoc(g.log, Reported(ok));
  }

  lemma CreationKeepsOwns(g: Grain, c: Creation)
    requires Owns(g) && c.Created?
    ensures Owns(Recovered(g, c)) && Grew(g, Recovered(g, c), 1, 0, 0)
    ensures OpenIn(g.log + [Opened(g.created)]) == Installed(g) + {g.created}
    ensures g.created !in Installed(g)
  {
    BalanceSnoc(g.log, Opened(g.created));
    var mid := g.log + [Opened(g.created)];
    assert Recovered(g, c).log == mid + CloseOf(g.executor);
    if g.executor.Some? {
      OpenIsNumbered(g.log, g.executor.value.id);
      BalanceSnoc(mid, Closed(g.executor.value.id));
      assert mid[..|g.log|] == g.log;
    } else {
      assert mid + [] == mid;
    }
  }

  /** Recovery opens at most the new executor and closes exactly the old one. */
  lemma RecoveryKeepsOwns(g: Grain, c: Creation)
    requires Owns(g)
    ensures Owns(Recovered(g, c))
    ensures Grew(g, Recovered(g, c), if c.Created? then 1 else 0, 0, 0)
    ensures Replaces(c) ==> Installed(g) !! Installed(Recovered(g, c))
  {
    EmptyEmit(g);
    if c.Created? {
      CreationKeepsOwns(g, c);
    } else if c.CreatedNil? && g.executor.Some? {
      BalanceSnoc(g.log, Closed(g.executor.value.id));
    }
  }

  lemma ActivationKeepsOwns(g: Grain, toolID: string, c: Creation)
    requires Owns(g) && g.executor.None?
    ensures Owns(Activated(g, toolID, c))
    ensures Grew(g, Activated(g, toolID, c), if c.Created? then 1 else 0, 0, 0)
  {
    if c.Created? {
      BalanceSnoc(g.log, Opened(g.created));
    }
  }

  /** After deactivation nothing is open. */
  lemma DeactivationKeepsOwns(g: Grain)
    requires Owns(g)
    ensures Owns(Deactivated(g)) && Installed(Deactivated(g)) == {} && OpenIn(Deactivated(g).log) == {}
    ensures Grew(g, Deactivated(g), 0, 0, 0)
  {
    EmptyEmit(g);
    if g.executor.Some? {
      BalanceSnoc(g.log, Closed(g.executor.value.id));
    }
  }

  // ---- What one message does --------------------------------------------------

  /** The invocation is retried on, or dies of, a replaced executor. */
  predicate Retries(g: Grain, inv: Invocation, env: Env) {
    && g.executor.Some?
    && NeedsRecovery(Dispatched(g.executor, inv, env.first))
    && Replaces(env.creation)
  }

  /** The invocation dereferences a nil executor: the factory answered (nil, nil) during
      recovery and the call is not a resource read. */
  predicate Crashes(g: Grain, inv: Invocation, env: Env) {
    Retries(g, inv, env) && env.creation.CreatedNil? && !inv.resourceRead
  }

  function InvokeCalls(g: Grain, inv: Invocation, env: Env): nat {
    (if Reaches(g.executor, inv) then 1 else 0) +
    if Retries(g, inv, env) && env.creation.Created? && (inv.resourceRead ==> env.creation.resources) then 1 else 0
  }

  function LastAnswer(g: Grain, inv: Invocation, env: Env): Answer {
    if !Retries(g, inv, env) then Dispatched(g.executor, inv, env.first)
    else if env.creation.Created?
    then Dispatched(Some(Executor(g.created, env.creation.streams, env.creation.resources)), inv, env.second)
    else Dispatched(None, inv, env.second)
  }

  lemma GrewTwice(a: Grain, b: Grain, c: Grain, o: nat, n: nat, r: nat, o': nat, n': nat, r': nat)
    requires Grew(a, b, o, n, r) && Grew(b, c, o', n', r')
    ensures Grew(a, c, o + o', n + n', r + r')
  {
    assert c.log[..|b.log|][..|a.log|] == c.log[..|a.log|];
  }

  /** An attempt and the report of its outcome. */
  lemma AttemptDoesOnce(g: Grain, inv: Invocation, r: Option<ExecutionResult>)
    requires Owns(g)
    ensures var called := Emit(g, CallOf(g.executor, inv));
      var s := Finish(called, r);
      var n := if Reaches(g.executor, inv) then 1 else 0;
      && Owns(called) && Grew(g, called, 0, n, 0)
      && Owns(s.after) && Grew(g, s.after, 0, n, 1) && RepliesAndReports(s)
  {
    EmptyEmit(g);
    var n := if Reaches(g.executor, inv) then 1 else 0;
    if Reaches(g.executor, inv) {
      CallKeepsOwns(g, g.executor.value.id);
    }
    var called := Emit(g, CallOf(g.executor, inv));
    var s := Finish(called, r);
    ReportKeepsOwns(called, Good(r));
    GrewTwice(g, called, s.after, 0, n, 0, 0, 0, 1);
  }

  predicate RepliesAndReports(s: Step) {
    s.reply.Answered? && s.after.log != [] && Last(s.after.log) == Reported(Good(s.reply.result))
  }

  /** The executor a recovering invocation retries on. */
  function Replacement(g: Grain, inv: Invocation, env: Env): Grain {
    Recovered(Emit(g, CallOf(g.executor, inv)), env.creation)
  }

  lemma ReplacementKeepsOwns(g: Grain, inv: Invocation, env: Env)
    requires Owns(g) && Retries(g, inv, env)
    ensures var back := Replacement(g, inv, env);
      && Owns(back)
      && Grew(g, back, if env.creation.Created? then 1 else 0, if Reaches(g.executor, inv) then 1 else 0, 0)
      && back.executor != g.executor && back.streams == g.streams && back.toolID == g.toolID
  {
    AttemptDoesOnce(g, inv, None);
    var called := Emit(g, CallOf(g.executor, inv));
    RecoveryKeepsOwns(called, env.creation);
    assert g.executor.value.id in Installed(called);
    GrewTwice(g, called, Recovered(called, env.creation), 0, if Reaches(g.executor, inv) then 1 else 0, 0,
              if env.creation.Created? then 1 else 0, 0, 0);
  }

  /** The retry on the replacement. */
  lemma RetryDoesOnce(g: Grain, inv: Invocation, env: Env)
    requires Owns(g) && Retries(g, inv, env) && !Crashes(g, inv, env)
    ensures var s := HandleInvoke(g, inv, env);
      && Owns(s.after)
      && Grew(g, s.after, if env.creation.Created? then 1 else 0, InvokeCalls(g, inv, env), 1)
      && RepliesAndReports(s)
      && s.after.executor != g.executor && s.after.streams == g.streams && s.after.toolID == g.toolID
  {
    ReplacementKeepsOwns(g, inv, env);
    var back := Replacement(g, inv, env);
    var a := Dispatched(back.executor, inv, env.second);
    AttemptDoesOnce(back, inv, Outcome(a));
    var s := Finish(Emit(back, CallOf(back.executor, inv)), Outcome(a));
    assert HandleInvoke(g, inv, env) == s;
    GrewTwice(g, back, s.after, if env.creation.Created? then 1 else 0, if Reaches(g.executor, inv) then 1 else 0, 0,
              0, if Reaches(back.executor, inv) then 1 else 0, 1);
  }

  /** A valid invocation makes at most two calls, replaces the executor at most once, and
      reports exactly one outcome unless it crashes; the report says whether the reply is a
      success. */
  lemma InvokeDoesOnce(g: Grain, inv: Invocation, env: Env)
    requires Owns(g)
    ensures var s := HandleInvoke(g, inv, env);
      && Owns(s.after)
      && Grew(g, s.after,
              if Retries(g, inv, env) && env.creation.Created? then 1 else 0,
              InvokeCalls(g, inv, env),
              if Crashes(g, inv, env) then 0 else 1)
      && InvokeCalls(g, inv, env) <= 2
      && (s.reply.Panicked? <==> Crashes(g, inv, env))
      && (s.reply.Panicked? || RepliesAndReports(s))
      && (s.after.executor != g.executor <==> Retries(g, inv, env))
      && s.after.streams == g.streams && s.after.toolID == g.toolID
  {
    if g.executor.None? {
      ReportKeepsOwns(g, true);
    } else if !Retries(g, inv, env) {
      AttemptDoesOnce(g, inv, Outcome(Dispatched(g.executor, inv, env.first)));
    } else if !Crashes(g, inv, env) {
      RetryDoesOnce(g, inv, env);
    } else {
      ReplacementKeepsOwns(g, inv, env);
      assert HandleInvoke(g, inv, env) == Step(Replacement(g, inv, env), Panicked);
    }
  }

  /** What the caller is told: nil exactly when the last attempt returned a nil result and
      no error; a failure when it returned an error; otherwise its result, with the elapsed
      time filled in only where it left none. */
  lemma InvokeAnswers(g: Grain, inv: Invocation, env: Env)
    requires g.executor.Some? && !Crashes(g, inv, env)
    ensures var a := LastAnswer(g, inv, env);
      var reply := HandleInvoke(g, inv, env).reply;
      && reply.Answered?
      && (reply.result.None? <==> !a.err && a.result.None?)
      && (a.err ==> reply.result == Some(Failed(a.elapsed)))
      && (!a.err && a.result.Some? ==>
            reply.result.Some? &&
            reply.result.value.(duration := 0) == a.result.value.(duration := 0) &&
            reply.result.value.duration ==
              (if a.result.value.duration == 0 then a.elapsed else a.result.value.duration))
  {
    var reply := HandleInvoke(g, inv, env).reply;
    assert reply == Answered(Outcome(LastAnswer(g, inv, env)));
  }

  /** A valid streaming message calls the executor at most once and either reports one
      outcome or starts one stream, on the installed executor; it never replaces it. */
  lemma StreamDoesOnce(g: Grain, env: Env)
    requires Owns(g)
    ensures var s := HandleInvokeStream(g, env);
      && Owns(s.after)
      && Grew(g, s.after, 0, if g.executor.Some? then 1 else 0, if s.reply.Streaming? then 0 else 1)
      && (s.reply.Streaming? <==> g.executor.Some? && g.executor.value.streams && !env.streamErr)
      && (s.reply.Streaming? ==> s.reply.executor in OpenIn(s.after.log))
      && (s.reply.Streaming? || RepliesAndReports(s))
      && s.after.executor == g.executor && s.after.toolID == g.toolID
      && s.after.streams == g.streams + if s.reply.Streaming? then 1 else 0
  {
    if g.executor.None? {
      ReportKeepsOwns(g, true);
    } else {
      var plain := Invocation(g.toolID, false);
      assert CallOf(g.executor, plain) == [Called(g.executor.value.id)];
      var r := if g.executor.value.streams then Some(Failed(0)) else Outcome(env.first);
      AttemptDoesOnce(g, plain, r);
    }
  }

  /** Every message keeps the ownership invariant; it counts a stream exactly when it starts
      one, on an executor that is open. */
  lemma HandleKeepsOwns(g: Grain, m: Message, env: Env)
    requires Owns(g)
    ensures var s := Handle(g, m, env);
      && Owns(s.after) && g.created <= s.after.created
      && s.after.streams == g.streams + (if s.reply.Streaming? then 1 else 0)
      && (s.reply.Streaming? ==> s.reply.executor < s.after.created)
  {
    if Accepts(g, m) {
      if m.Invoke? {
        InvokeDoesOnce(g, m.invocation.value, env);
      } else {
        StreamDoesOnce(g, env);
        var s := HandleInvokeStream(g, env);
        if s.reply.Streaming? {
          OpenIsNumbered(s.after.log, s.reply.executor);
        }
      }
    }
  }

  /** What a message does to the log: at most two calls and one report for a valid
      invocation, of which a stream owes its report and a crash forgets it. */
  lemma HandleGrows(g: Grain, m: Message, env: Env)
    requires Owns(g)
    ensures var s := Handle(g, m, env);
      var crash := Accepts(g, m) && m.Invoke? && Crashes(g, m.invocation.value, env);
      && Reports(s.after.log) + (if s.reply.Streaming? then 1 else 0) + (if crash then 1 else 0)
         == Reports(g.log) + (if Accepts(g, m) then 1 else 0)
      && Calls(s.after.log) <= Calls(g.log) + (if Accepts(g, m) then 2 else 0)
  {
    if Accepts(g, m) {
      if m.Invoke? {
        InvokeDoesOnce(g, m.invocation.value, env);
      } else {
        StreamDoesOnce(g, env);
      }
    }
  }

  // ---- Each invocation step by step -------------------------------------------

  /** The executor is replaced if and only if one is installed, the call reaches it and comes
      back with an error or a transport failure, and the factory has a replacement to give. */
  lemma ReplacedExactlyWhen(g: Grain, inv: Invocation, env: Env)
    requires Owns(g)
    ensures HandleInvoke(g, inv, env).after.executor != g.executor <==>
      && g.executor.Some?
      && (inv.resourceRead ==> g.executor.value.resources)
      && (env.first.err || (env.first.result.Some? && env.first.result.value.err == Some(TransportFailure)))
      && (env.creation.Created? || env.creation.CreatedNil?)
  {
    InvokeDoesOnce(g, inv, env);
  }

  /** A call that comes back with neither is made once, and its result is the reply. */
  lemma HealthyCallIsMadeOnce(g: Grain, inv: Invocation, env: Env)
    requires g.executor.Some? && (inv.resourceRead ==> g.executor.value.resources)
    requires !env.first.err && (env.first.result.None? || env.first.result.value.err != Some(TransportFailure))
    ensures var s := HandleInvoke(g, inv, env);
      var r := env.first.result;
      && s.after.executor == g.executor
      && s.after.log == g.log + [Called(g.executor.value.id), Reported(Good(r))]
      && s.reply.Answered? && (s.reply.result.None? <==> r.None?)
      && (r.Some? && r.value.duration != 0 ==> s.reply.result == r)
      && (r.Some? && r.value.duration == 0 ==> s.reply.result == Some(r.value.(duration := env.first.elapsed)))
  {
    var id := g.executor.value.id;
    assert g.log + [Called(id)] + [Reported(Good(env.first.result))] ==
           g.log + [Called(id), Reported(Good(env.first.result))];
  }

  /** A failed call without a replacement is not repeated: an error is answered with an
      internal failure, a transport failure with itself. */
  lemma FailedCallWithoutReplacement(g: Grain, inv: Invocation, env: Env)
    requires g.executor.Some? && (inv.resourceRead ==> g.executor.value.resources)
    requires env.first.err || (env.first.result.Some? && env.first.result.value.err == Some(TransportFailure))
    requires env.creation.NoFactory? || env.creation.CreateError?
    ensures var s := HandleInvoke(g, inv, env);
      && s.after.executor == g.executor
      && s.after.log == g.log + [Called(g.executor.value.id), Reported(false)]
      && (env.first.err ==>
            s.reply == Answered(Some(ExecutionResult(Failure, "", Some(Internal), env.first.elapsed))))
      && (!env.first.err ==>
            && s.reply.Answered? && s.reply.result.Some?
            && s.reply.result.value.(duration := 0) == env.first.result.value.(duration := 0))
  {
    var id := g.executor.value.id;
    assert g.log + [Called(id)] + [Reported(false)] == g.log + [Called(id), Reported(false)];
  }

  /** With a replacement the old executor is closed once the new one is open, the call is
      made again on the new one, and its answer is the reply: whatever the first was. */
  lemma FailedCallIsRepeatedOnNew(g: Grain, inv: Invocation, env: Env)
    requires g.executor.Some? && (inv.resourceRead ==> g.executor.value.resources)
    requires env.first.err || (env.first.result.Some? && env.first.result.value.err == Some(TransportFailure))
    requires env.creation.Created? && (inv.resourceRead ==> env.creation.resources)
    ensures var s := HandleInvoke(g, inv, env);
      var id, a := g.executor.value.id, env.second;
      && s.after.executor == Some(Executor(g.created, env.creation.streams, env.creation.resources))
      && s.reply.Answered?
      && s.after.log == g.log +
           [Called(id), Opened(g.created), Closed(id), Called(g.created), Reported(Good(s.reply.result))]
      && (a.err ==> s.reply.result == Some(ExecutionResult(Failure, "", Some(Internal), a.elapsed)))
      && (!a.err ==> (s.reply.result.None? <==> a.result.None?))
      && (!a.err && a.result.Some? ==> s.reply.result.value.(duration := 0) == a.result.value.(duration := 0))
  {
    var id, good := g.executor.value.id, Good(HandleInvoke(g, inv, env).reply.result);
    assert g.log + [Called(id)] + [Opened(g.created), Closed(id)] + [Called(g.created)] + [Reported(good)] ==
           g.log + [Called(id), Opened(g.created), Closed(id), Called(g.created), Reported(good)];
    assert [Opened(g.created)] + [Closed(id)] == [Opened(g.created), Closed(id)];
  }

  /** A failed resource read whose replacement is nil or has no resources is refused
      without a second call. */
  lemma FailedReadOnLesserReplacement(g: Grain, inv: Invocation, env: Env)
    requires g.executor.Some? && inv.resourceRead && g.executor.value.resources
    requires env.first.err || (env.first.result.Some? && env.first.result.value.err == Some(TransportFailure))
    requires env.creation.CreatedNil? || (env.creation.Created? && !env.creation.resources)
    ensures var s := HandleInvoke(g, inv, env);
      var id := g.executor.value.id;
      && s.reply == Answered(Some(ExecutionResult(Failure, "", Some(InvalidRequest), env.second.elapsed)))
      && s.after.log == g.log + [Called(id)] +
           (if env.creation.Created? then [Opened(g.created)] else []) + [Closed(id), Reported(false)]
  {
    EmptyEmit(Replacement(g, inv, env));
    var id := g.executor.value.id;
    assert g.log + [Called(id)] + [Closed(id)] + [Reported(false)] ==
           g.log + [Called(id)] + [] + [Closed(id), Reported(false)];
    assert g.log + [Called(id)] + ([Opened(g.created)] + [Closed(id)]) + [Reported(false)] ==
           g.log + [Called(id)] + [Opened(g.created)] + [Closed(id), Reported(false)];
  }

  /** A resource read on an executor without resources is refused without a call. */
  lemma UnsupportedReadIsRefused(g: Grain, inv: Invocation, env: Env)
    requires g.executor.Some? && inv.resourceRead && !g.executor.value.resources
    ensures var s := HandleInvoke(g, inv, env);
      && s.after.executor == g.executor && s.after.log == g.log + [Reported(false)]
      && s.reply == Answered(Some(ExecutionResult(Failure, "", Some(InvalidRequest), env.first.elapsed)))
  {
    EmptyEmit(g);
  }

  /** Without an executor both kinds of invocation succeed with an empty output and no call. */
  lemma StubAnswers(g: Grain, inv: Invocation, env: Env)
    requires g.executor.None?
    ensures var s := Step(g.(log := g.log + [Reported(true)]),
                          Answered(Some(ExecutionResult(Success, "", None, env.first.elapsed))));
      HandleInvoke(g, inv, env) == s && HandleInvokeStream(g, env) == s
  {
  }

  /** A streaming invocation on an executor that does not stream is one plain call with its
      answer as reply; on one that does, an error starting the stream is a failure. */
  lemma StreamAnswers(g: Grain, env: Env)
    requires g.executor.Some?
    ensures var s := HandleInvokeStream(g, env);
      var x, a := g.executor.value, env.first;
      && s.after.executor == g.executor
      && (x.streams && !env.streamErr ==> s.reply == Streaming(x.id) && s.after.log == g.log + [Called(x.id)])
      && (x.streams && env.streamErr ==>
            s.reply == Answered(Some(ExecutionResult(Failure, "", Some(Internal), 0))))
      && (!x.streams ==> s.reply.Answered?)
      && (!x.streams && a.err ==>
            s.reply == Answered(Some(ExecutionResult(Failure, "", Some(Internal), a.elapsed))))
      && (!x.streams && !a.err ==> (s.reply.result.None? <==> a.result.None?))
      && (!x.streams && !a.err && a.result.Some? ==>
            && s.reply.result.value.(duration := 0) == a.result.value.(duration := 0)
            && (a.result.value.duration != 0 ==> s.reply.result == a.result))
      && (s.reply.Answered? ==> s.after.log == g.log + [Called(x.id), Reported(Good(s.reply.result))])
  {
    var id := g.executor.value.id;
    forall ok: bool
      ensures g.log + [Called(id)] + [Reported(ok)] == g.log + [Called(id), Reported(ok)]
    {
    }
  }

  /** The supervisor is told of a success exactly for a result that says so and carries no
      error. */
  lemma ReportsSuccessExactly(s: Step)
    requires RepliesAndReports(s)
    ensures Last(s.after.log) == Reported(true) <==>
      s.reply.result.Some? && s.reply.result.value.status == Success && s.reply.result.value.err.None?
  {
  }

  /** A message is rejected, without any effect, exactly if its invocation is missing or for
      another tool. */
  lemma RejectedExactly(g: Grain, m: Message, env: Env)
    ensures Handle(g, m, env).reply.Rejected? <==>
      !m.GetIdentity? && (m.invocation.None? || m.invocation.value.toolID != g.toolID)
    ensures Handle(g, m, env).reply.Rejected? || m.GetIdentity? ==> Handle(g, m, env).after == g
    ensures m.GetIdentity? ==> Handle(g, m, env).reply == Identity(g.toolID)
  {
  }

  // ---- Inputs on which executeOnce breaks its promises ------------------------

  const DROPPED := Answer(false, Some(ExecutionResult(Failure, "", Some(TransportFailure), 1)), 1)

  /** Whatever the executor, an invocation that it answers with (nil, nil) is answered nil,
      and reported as a failure. */
  lemma NilAnswerIsPassedOn(g: Grain, inv: Invocation, env: Env)
    requires g.executor.Some? && Reaches(g.executor, inv) && env.first == Answer(false, None, 0)
    ensures HandleInvoke(g, inv, env).reply == Answered(None)
    ensures Last(HandleInvoke(g, inv, env).after.log) == Reported(false)
  {
  }

  /** Whatever the executor, a transport failure followed by a factory that returns
      (nil, nil) kills the handler: no reply, no report, and the executor closed. */
  lemma NilFactoryCrashes(g: Grain, inv: Invocation, env: Env)
    requires g.executor.Some? && !inv.resourceRead && env.first == DROPPED && env.creation == CreatedNil
    ensures var s := HandleInvoke(g, inv, env);
      s.reply.Panicked? && s.after.executor.None? &&
      s.after.log == g.log + [Called(g.executor.value.id), Closed(g.executor.value.id)]
  {
    var id := g.executor.value.id;
    assert g.log + [Called(id)] + [Closed(id)] == g.log + [Called(id), Closed(id)];
  }

  // ---- The grain itself -------------------------------------------------------

  /** The world the grain acts on: the factory, the executors and the supervisor's mailbox.
      Calls and closes demand an open executor. */
  class Backend {
    var created: nat
    var log: seq<Effect>

    constructor ()
      ensures created == 0 && log == []
    {
      created, log := 0, [];
    }

    method Create(streams: bool, resources: bool) returns (e: Executor)
      modifies this
      ensures e == Executor(old(created), streams, resources)
      ensures created == old(created) + 1 && log == old(log) + [Opened(old(created))]
    {
      e := Executor(created, streams, resources);
      log := log + [Opened(created)];
      created := created + 1;
    }

    method Call(e: Executor)
      requires e.id in OpenIn(log)
      modifies this
      ensures created == old(created) && log == old(log) + [Called(e.id)]
    {
      log := log + [Called(e.id)];
    }

    method Close(e: Executor)
      requires e.id in OpenIn(log)
      modifies this
      ensures created == old(created) && log == old(log) + [Closed(e.id)]
    {
      log := log + [Closed(e.id)];
    }

    method Report(success: bool)
      modifies this
      ensures created == old(created) && log == old(log) + [Reported(success)]
    {
      log := log + [Reported(success)];
    }
  }

  class SessionGrain {
    var toolID: string
    var executor: Option<Executor>
    var streams: nat
    const backend: Backend

    ghost function View(): Grain
      reads this, backend
    {
      Grain(toolID, executor, streams, backend.created, backend.log)
    }

    ghost predicate Valid()
      reads this, backend
    {
      Owns(View())
    }

    constructor (backend: Backend)
      requires Legal(backend.log) && Opens(backend.log) == backend.created && OpenIn(backend.log) == {}
      ensures this.backend == backend && Valid()
      ensures View() == Grain("", None, 0, backend.created, backend.log)
    {
      toolID, executor, streams := "", None, 0;
      this.backend := backend;
    }

    method OnActivate(dependency: Option<string>, c: Creation) returns (ok: bool)
      requires Valid() && executor.None?
      modifies this, backend
      ensures Valid()
      ensures ok <==> Activates(dependency, c)
      ensures ok ==> View() == Activated(old(View()), dependency.value, c)
      ensures !ok ==> executor.None? && backend.log == old(backend.log) && streams == old(streams)
    {
      if dependency.None? {
        return false;
      }
      toolID := dependency.value;
      if toolID == "" {
        return false;
      }
      ActivationKeepsOwns(View(), toolID, c);
      if c.CreateError? {
        return false;
      }
      executor := None;
      if c.Created? {
        var built := backend.Create(c.streams, c.resources);
        executor := Some(built);
      }
      return true;
    }

    method TryRecoverExecutor(c: Creation) returns (ok: bool)
      requires Valid()
      modifies this, backend
      ensures Valid()
      ensures ok <==> Replaces(c)
      ensures View() == Recovered(old(View()), c)
    {
      ghost var before := View();
      RecoveryKeepsOwns(before, c);
      EmptyEmit(before);
      if c.NoFactory? || c.CreateError? {
        return false;
      }
      var built: Option<Executor> := None;
      if c.Created? {
        CreationKeepsOwns(before, c);
        var e := backend.Create(c.streams, c.resources);
        built := Some(e);
      }
      ghost var grown := backend.log;
      var previous := executor;
      executor := built;
      if previous.Some? {
        backend.Close(previous.value);
      }
      assert backend.log == grown + CloseOf(previous);
      assert c.Created? ==> backend.log == before.log + ([Opened(before.created)] + CloseOf(previous));
      return true;
    }

    /** None stands for a panic: calling Execute on a nil executor. */
    method Dispatch(e: Option<Executor>, inv: Invocation, a: Answer) returns (r: Option<Answer>)
      requires e.Some? ==> e.value.id in OpenIn(backend.log)
      modifies backend
      ensures r.None? <==> e.None? && !inv.resourceRead
      ensures r.Some? ==> r.value == Dispatched(e, inv, a)
      ensures View() == Emit(old(View()), CallOf(e, inv))
    {
      EmptyEmit(View());
      if inv.resourceRead {
        if e.None? || !e.value.resources {
          return Some(Answer(false, Some(UNSUPPORTED), a.elapsed));
        }
        backend.Call(e.value);
        return Some(a);
      }
      if e.None? {
        return None;
      }
      backend.Call(e.value);
      return Some(a);
    }

    /** executeOnce; panicked stands for the nil dereference of its second dispatch. */
    method ExecuteOnce(inv: Invocation, env: Env) returns (panicked: bool, r: Option<ExecutionResult>)
      requires Valid() && executor.Some?
      modifies this, backend
      ensures panicked <==> Crashes(old(View()), inv, env)
      ensures panicked ==> Step(View(), Panicked) == HandleInvoke(old(View()), inv, env)
      ensures !panicked ==> Finish(View(), r) == HandleInvoke(old(View()), inv, env)
    {
      ghost var g := View();
      if Reaches(executor, inv) {
        CallKeepsOwns(g, executor.value.id);
      }
      EmptyEmit(g);
      var answered := Dispatch(executor, inv, env.first);
      var answer := answered.value;
      if answer.err || IsTransportFailure(answer.result) {
        var recovered := TryRecoverExecutor(env.creation);
        if recovered {
          answered := Dispatch(executor, inv, env.second);
          if answered.None? {
            EmptyEmit(View());
            return true, None;
          }
          answer := answered.value;
        }
        if answer.err {
          return false, Some(Failed(answer.elapsed));
        }
      }
      r := answer.result;
      if r.Some? && r.value.duration == 0 {
        r := Some(r.value.(duration := answer.elapsed));
      }
      return false, r;
    }

    method HandleSessionInvoke(invocation: Option<Invocation>, env: Env) returns (reply: Reply)
      requires Valid()
      modifies this, backend
      ensures Valid()
      ensures Step(View(), reply) == Handle(old(View()), Invoke(invocation), env)
    {
      HandleKeepsOwns(View(), Invoke(invocation), env);
      if invocation.None? || invocation.value.toolID != toolID {
        return Rejected;
      }
      if executor.None? {
        backend.Report(true);
        return Answered(Some(Stub(env.first.elapsed)));
      }
      var panicked, r := ExecuteOnce(invocation.value, env);
      if panicked {
        return Panicked;
      }
      backend.Report(Good(r));
      return Answered(r);
    }

    method HandleSessionInvokeStream(invocation: Option<Invocation>, env: Env) returns (reply: Reply)
      requires Valid()
      modifies this, backend
      ensures Valid()
      ensures Step(View(), reply) == Handle(old(View()), InvokeStream(invocation), env)
    {
      HandleKeepsOwns(View(), InvokeStream(invocation), env);
      if invocation.None? || invocation.value.toolID != toolID {
        return Rejected;
      }
      if executor.None? || !executor.value.streams {
        reply := HandleFallback(env);
        return;
      }
      backend.Call(executor.value);
      if env.streamErr {
        backend.Report(false);
        return Answered(Some(Failed(0)));
      }
      streams := streams + 1;
      return Streaming(executor.value.id);
    }

    method HandleFallback(env: Env) returns (reply: Reply)
      requires Valid() && (executor.Some? ==> !executor.value.streams)
      modifies backend
      ensures Step(View(), reply) == HandleInvokeStream(old(View()), env)
    {
      if executor.None? {
        backend.Report(true);
        return Answered(Some(Stub(env.first.elapsed)));
      }
      backend.Call(executor.value);
      var r := env.first.result;
      if env.first.err {
        r := Some(Failed(env.first.elapsed));
      }
      if r.Some? && r.value.duration == 0 {
        r := Some(r.value.(duration := env.first.elapsed));
      }
      backend.Report(Good(r));
      return Answered(r);
    }

    /** What follows streams.Wait, which returns only at a zero counter. */
    method OnDeactivate()
      requires Valid() && streams == 0
      modifies this, backend
      ensures Valid() && OpenIn(backend.log) == {}
      ensures View() == Deactivated(old(View()))
    {
      DeactivationKeepsOwns(View());
      EmptyEmit(View());
      var previous := executor;
      executor := None;
      if previous.Some? {
        backend.Close(previous.value);
      }
    }
  }
}
