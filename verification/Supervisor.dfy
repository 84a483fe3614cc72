/** The tool supervisor actor of internal/runtime/actor/tool_supervisor.go: one message
    at a time over the tool copy, the drain flag, the session map and the breaker. */
module Supervisor {
  import opened Basics
  import opened Tools
  import C = Circuit

  datatype Registration = Registration(tenant: string, client: string)

  datatype Refusal =
    | ToolMismatch
    | ToolDisabled
    | ToolDraining
    | CircuitOpen
    | HalfOpenLimit
    | BackpressureCap

  datatype Reply =
    | NoReply
    | Accept(sessionCount: nat)
    | Refuse(reason: Refusal, sessionCount: nat)
    | Status(id: string, state: ToolState, circuit: C.State, sessionCount: nat, draining: bool)
    | Done
    | Mismatch

  datatype Msg =
    | CanAcceptWork(toolID: string, at: int)
    | ReportFailure(toolID: string, at: int)
    | ReportSuccess(toolID: string, at: int)
    | SessionActivated(toolID: string, tenant: string, client: string)
    | SessionDeactivated(toolID: string, tenant: string, client: string)
    | RefreshToolConfig(found: Option<Tool>)
    | GetToolStatus(toolID: string, at: int)
    | ResetCircuit(toolID: string, at: int)
    | DrainTool(toolID: string)

  /** The actor's fields. */
  datatype Sup = Sup(
    tool: Tool,
    circuit: C.Breaker,
    draining: bool,
    sessions: map<string, Registration>)

  datatype Handled = Handled(after: Sup, reply: Reply, emitted: seq<C.Transition>)

  function SessionName(tenant: string, client: string, tool: string): string {
    "session-" + tenant + "-" + client + "-" + tool
  }

  function Emit(t: Option<C.Transition>): seq<C.Transition> {
    if t.Some? then [t.value] else []
  }

  function Quiet(s: Sup, r: Reply): Handled {
    Handled(s, r, [])
  }

  function HandleCanAcceptWork(s: Sup, id: string, at: int): Handled {
    var n := |s.sessions|;
    if id != s.tool.id then Quiet(s, Refuse(ToolMismatch, n))
    else if s.tool.state == Disabled then Quiet(s, Refuse(ToolDisabled, n))
    else if s.draining then Quiet(s, Refuse(ToolDraining, n))
    else
      var r := C.Step(s.circuit, C.Call(C.Acquire, at));
      Handled(
        s.(circuit := r.after),
        match r.outcome
        case Some(RejectedOpen) => Refuse(CircuitOpen, n)
        case Some(RejectedHalfOpenLimit) => Refuse(HalfOpenLimit, n)
        case _ => if s.tool.maxSessions > 0 && n >= s.tool.maxSessions then Refuse(BackpressureCap, n) else Accept(n),
        Emit(r.transition))
  }

  function HandleRefresh(s: Sup, found: Option<Tool>): Handled {
    if found.None? then Quiet(s, NoReply)
    else Quiet(s.(tool := found.value, draining := s.draining && found.value.state != Enabled), NoReply)
  }

  /** A message that does nothing to the circuit but one call. */
  function OnCircuit(s: Sup, call: C.Call, reply: Reply): Handled {
    var r := C.Step(s.circuit, call);
    Handled(s.(circuit := r.after), reply, Emit(r.transition))
  }

  function HandleGetToolStatus(s: Sup, id: string, at: int): Handled {
    if id != s.tool.id then Quiet(s, Mismatch)
    else
      var r := C.Step(s.circuit, C.Call(C.Peek, at));
      Handled(
        s.(circuit := r.after),
        Status(s.tool.id, s.tool.state, r.after.state, |s.sessions|, s.draining),
        Emit(r.transition))
  }

  function Handle(s: Sup, m: Msg): Handled {
    match m
    case CanAcceptWork(id, at) => HandleCanAcceptWork(s, id, at)
    case ReportFailure(id, at) =>
      if id != s.tool.id then Quiet(s, NoReply) else OnCircuit(s, C.Call(C.OnFailure, at), NoReply)
    case ReportSuccess(id, at) =>
      if id != s.tool.id then Quiet(s, NoReply) else OnCircuit(s, C.Call(C.OnSuccess, at), NoReply)
    case SessionActivated(id, tenant, client) =>
      if id != s.tool.id then Quiet(s, NoReply)
      else Quiet(s.(sessions := s.sessions[SessionName(tenant, client, id) := Registration(tenant, client)]), NoReply)
    case SessionDeactivated(id, tenant, client) =>
      if id != s.tool.id then Quiet(s, NoReply)
      else Quiet(s.(sessions := s.sessions - {SessionName(tenant, client, id)}), NoReply)
    case RefreshToolConfig(found) => HandleRefresh(s, found)
    case GetToolStatus(id, at) => HandleGetToolStatus(s, id, at)
    case ResetCircuit(id, at) =>
      if id != s.tool.id then Quiet(s, Mismatch) else OnCircuit(s, C.Call(C.Reset, at), Done)
    case DrainTool(id) =>
      if id != s.tool.id then Quiet(s, Mismatch) else Quiet(s.(draining := true), Done)
  }

  /** A supervisor that has processed PostStart: an optional override replaces the
      default circuit configuration. */
  function Started(tool: Tool, override: Option<C.Config>): Sup {
    Sup(tool, C.New(if override.Some? then override.value else C.Config(0, 0, 0)), false, map[])
  }

  // ---- Runs -------------------------------------------------------------------

  /** The supervisor after a sequence of messages, with all it emitted on the way. */
  datatype Trace = Trace(sup: Sup, emitted: seq<C.Transition>)

  function After(tool: Tool, override: Option<C.Config>, msgs: seq<Msg>): Trace {
    if msgs == [] then Trace(Started(tool, override), [])
    else
      var before := After(tool, override, Front(msgs));
      var h := Handle(before.sup, Last(msgs));
      Trace(h.after, before.emitted + h.emitted)
  }

  /** Follows transitions from the closed state; None when one of them does not start
      where the previous one ended, is a self-loop, or is not an edge of the diagram. */
  function Replay(ts: seq<C.Transition>): Option<C.State> {
    if ts == [] then Some(C.Closed)
    else
      var t := Last(ts);
      if Replay(Front(ts)) == Some(t.from) && t.from != t.to && C.Legal(t) then Some(t.to) else None
  }

  lemma {:induction false} HandleKeepsWf(s: Sup, m: Msg)
    requires C.Wf(s.circuit)
    ensures var h := Handle(s, m);
      && C.Wf(h.after.circuit)
      && h.after.circuit.config == s.circuit.config
      && |h.emitted| <= 1
      && (h.emitted == [] ==> h.after.circuit.state == s.circuit.state)
      && (h.emitted != [] ==>
        && C.Legal(h.emitted[0])
        && h.emitted[0].from == s.circuit.state != h.emitted[0].to == h.after.circuit.state
        && h.emitted[0].failureCount == s.circuit.config.failureThreshold)
  {
    match m
    case CanAcceptWork(_, at) => C.StepKeepsWf(s.circuit, C.Call(C.Acquire, at));
    case ReportFailure(_, at) => C.StepKeepsWf(s.circuit, C.Call(C.OnFailure, at));
    case ReportSuccess(_, at) => C.StepKeepsWf(s.circuit, C.Call(C.OnSuccess, at));
    case GetToolStatus(_, at) => C.StepKeepsWf(s.circuit, C.Call(C.Peek, at));
    case ResetCircuit(_, at) => C.StepKeepsWf(s.circuit, C.Call(C.Reset, at));
    case _ =>
  }

  /** One more transition on a path that ends where it starts. */
  lemma ReplayOneMore(ts: seq<C.Transition>, t: C.Transition)
    requires Replay(ts) == Some(t.from) && t.from != t.to && C.Legal(t)
    ensures Replay(ts + [t]) == Some(t.to)
  {
    assert Front(ts + [t]) == ts && Last(ts + [t]) == t;
  }

  predicate CountsAre(ts: seq<C.Transition>, n: int) {
    forall i :: 0 <= i < |ts| ==> ts[i].failureCount == n
  }

  /** The transitions are a connected legal path from Closed to the breaker's state
      without self-loops, each with a failure count equal to the threshold in force. */
  predicate Explains(ts: seq<C.Transition>, b: C.Breaker) {
    Replay(ts) == Some(b.state) && CountsAre(ts, b.config.failureThreshold)
  }

  lemma ExplainedOneMore(ts: seq<C.Transition>, emitted: seq<C.Transition>, before: C.Breaker, after: C.Breaker)
    requires Explains(ts, before) && after.config == before.config && |emitted| <= 1
    requires emitted == [] ==> after.state == before.state
    requires emitted != [] ==>
      && C.Legal(emitted[0])
      && emitted[0].from == before.state != emitted[0].to == after.state
      && emitted[0].failureCount == before.config.failureThreshold
    ensures Explains(ts + emitted, after)
  {
    if emitted == [] {
      assert ts + emitted == ts;
    } else {
      assert emitted == [emitted[0]];
      ReplayOneMore(ts, emitted[0]);
    }
  }

  /** Over any run the emitted transitions explain the breaker: replaying them gives its
      state. */
  lemma {:induction false} EmittedTransitionsReplay(tool: Tool, override: Option<C.Config>, msgs: seq<Msg>)
    ensures var t := After(tool, override, msgs);
      && Explains(t.emitted, t.sup.circuit)
      && C.Wf(t.sup.circuit)
      && t.sup.circuit.config == Started(tool, override).circuit.config
  {
    if msgs != [] {
      var before := After(tool, override, Front(msgs));
      EmittedTransitionsReplay(tool, override, Front(msgs));
      HandleKeepsWf(before.sup, Last(msgs));
      var h := Handle(before.sup, Last(msgs));
      ExplainedOneMore(before.emitted, h.emitted, before.sup.circuit, h.after.circuit);
    }
  }

  /** Work is accepted exactly when the tool matches, is not disabled or draining, the
      breaker grants the call, and the registered sessions are below the cap. */
  lemma AcceptedExactlyWhen(s: Sup, id: string, at: int)
    requires C.Wf(s.circuit)
    ensures Handle(s, CanAcceptWork(id, at)).reply.Accept? <==>
      && id == s.tool.id
      && s.tool.state != Disabled
      && !s.draining
      && (|| s.circuit.state == C.Closed
          || (s.circuit.state == C.Open && at >= s.circuit.openedAt + s.circuit.config.openDuration)
          || (s.circuit.state == C.HalfOpen && s.circuit.halfOpenInFlight < s.circuit.config.halfOpenMaxRequests))
      && (s.tool.maxSessions > 0 ==> |s.sessions| < s.tool.maxSessions)
  {
  }

  // ---- The supervisor's fields are functions of its history -------------------

  /** The tool copy is the last one a refresh found. */
  function LastTool(tool: Tool, msgs: seq<Msg>): Tool {
    if msgs == [] then tool
    else if Last(msgs).RefreshToolConfig? && Last(msgs).found.Some? then Last(msgs).found.value
    else LastTool(tool, Front(msgs))
  }

  /** The message addresses the tool that the supervisor has by then. */
  predicate Addressed(tool: Tool, before: seq<Msg>, m: Msg) {
    !m.RefreshToolConfig? && m.toolID == LastTool(tool, before).id
  }

  /** A DrainTool was addressed to the supervisor and no refresh has found an enabled tool
      since. */
  predicate Drained(tool: Tool, msgs: seq<Msg>) {
    msgs != [] &&
    var m := Last(msgs);
    if m.DrainTool? && Addressed(tool, Front(msgs), m) then true
    else if m.RefreshToolConfig? && m.found.Some? && m.found.value.state == Enabled then false
    else Drained(tool, Front(msgs))
  }

  /** Who was last activated under the name, if nobody was deactivated under it since. */
  function Session(tool: Tool, msgs: seq<Msg>, name: string): Option<Registration> {
    if msgs == [] then None
    else
      var m := Last(msgs);
      if (m.SessionActivated? || m.SessionDeactivated?) && Addressed(tool, Front(msgs), m) &&
         SessionName(m.tenant, m.client, m.toolID) == name
      then (if m.SessionActivated? then Some(Registration(m.tenant, m.client)) else None)
      else Session(tool, Front(msgs), name)
  }

  /** ReportFailure messages since the last ReportSuccess or ResetCircuit, all as far as they
      address the supervisor's tool. */
  function ReportedFailures(tool: Tool, msgs: seq<Msg>): nat {
    if msgs == [] then 0
    else
      var m := Last(msgs);
      if !Addressed(tool, Front(msgs), m) then ReportedFailures(tool, Front(msgs))
      else if m.ReportFailure? then ReportedFailures(tool, Front(msgs)) + 1
      else if m.ReportSuccess? || m.ResetCircuit? then 0
      else ReportedFailures(tool, Front(msgs))
  }

  /** What one message does to the tool copy and the drain flag. */
  lemma HandleTool(s: Sup, m: Msg)
    ensures var t := Handle(s, m).after;
      && t.tool == (if m.RefreshToolConfig? && m.found.Some? then m.found.value else s.tool)
      && (t.draining <==>
            (m.DrainTool? && m.toolID == s.tool.id) ||
            (s.draining && !(m.RefreshToolConfig? && m.found.Some? && m.found.value.state == Enabled)))
  {
  }

  /** What one message does to the session map. */
  lemma HandleSessions(s: Sup, m: Msg, name: string)
    ensures var before, after := s.sessions, Handle(s, m).after.sessions;
      if (m.SessionActivated? || m.SessionDeactivated?) && m.toolID == s.tool.id &&
         SessionName(m.tenant, m.client, m.toolID) == name
      then
        && (name in after <==> m.SessionActivated?)
        && (m.SessionActivated? ==> after[name] == Registration(m.tenant, m.client))
      else
        && (name in after <==> name in before)
        && (name in before ==> after[name] == before[name])
  {
  }

  /** What one message does to the failure count of a circuit that is closed afterwards. */
  lemma HandleCount(s: Sup, m: Msg)
    requires C.Wf(s.circuit) && Handle(s, m).after.circuit.state == C.Closed
    ensures var n := Handle(s, m).after.circuit.failureCount;
      if m.RefreshToolConfig? || m.toolID != s.tool.id then n == s.circuit.failureCount && s.circuit.state == C.Closed
      else if m.ReportFailure? then n == s.circuit.failureCount + 1 && s.circuit.state == C.Closed
      else if m.ReportSuccess? || m.ResetCircuit? then n == 0
      else n == s.circuit.failureCount && s.circuit.state == C.Closed
  {
  }

  /** In every reachable state the tool copy and the drain flag are what the messages so far
      make them. */
  lemma {:induction false} ToolIsHistory(tool: Tool, override: Option<C.Config>, msgs: seq<Msg>)
    ensures After(tool, override, msgs).sup.tool == LastTool(tool, msgs)
    ensures After(tool, override, msgs).sup.draining == Drained(tool, msgs)
  {
    if msgs != [] {
      ToolIsHistory(tool, override, Front(msgs));
      HandleTool(After(tool, override, Front(msgs)).sup, Last(msgs));
    }
  }

  /** And so is the session map: a name is registered, and to whom, exactly if its last
      activation has not been followed by a deactivation. */
  lemma {:induction false} SessionsAreHistory(tool: Tool, override: Option<C.Config>, msgs: seq<Msg>, name: string)
    ensures var sessions := After(tool, override, msgs).sup.sessions;
      && (name in sessions <==> Session(tool, msgs, name).Some?)
      && (name in sessions ==> Some(sessions[name]) == Session(tool, msgs, name))
  {
    if msgs != [] {
      SessionsAreHistory(tool, override, Front(msgs), name);
      ToolIsHistory(tool, override, Front(msgs));
      HandleSessions(After(tool, override, Front(msgs)).sup, Last(msgs), name);
    }
  }

  /** While the circuit is closed its failure count is the number of failures reported since
      the last reported success or reset, and below the threshold. */
  lemma {:induction false} FailureCountIsReports(tool: Tool, override: Option<C.Config>, msgs: seq<Msg>)
    ensures var b := After(tool, override, msgs).sup.circuit;
      b.state == C.Closed ==> b.failureCount == ReportedFailures(tool, msgs) < b.config.failureThreshold
  {
    EmittedTransitionsReplay(tool, override, msgs);
    if msgs != [] && After(tool, override, msgs).sup.circuit.state == C.Closed {
      FailureCountIsReports(tool, override, Front(msgs));
      ToolIsHistory(tool, override, Front(msgs));
      EmittedTransitionsReplay(tool, override, Front(msgs));
      HandleCount(After(tool, override, Front(msgs)).sup, Last(msgs));
    }
  }

  /** What one message does to the state of the circuit. */
  lemma HandleCircuit(s: Sup, m: Msg)
    requires C.Wf(s.circuit)
    ensures var b, t := s.circuit, Handle(s, m).after.circuit;
      var own := !m.RefreshToolConfig? && m.toolID == s.tool.id;
      && (b.state == C.Closed ==>
            (t.state != C.Closed <==>
              own && m.ReportFailure? && b.failureCount + 1 == b.config.failureThreshold))
      && (b.state != C.Closed ==>
            (t.state == C.Closed <==> own && (m.ResetCircuit? || (m.ReportSuccess? && b.state == C.HalfOpen))))
      && (b.state == C.HalfOpen ==> (t.state == C.Open <==> own && m.ReportFailure?))
      && (b.state == C.Open ==>
            (t.state == C.HalfOpen <==>
              && own && (m.GetToolStatus? || (m.CanAcceptWork? && s.tool.state != Disabled && !s.draining))
              && m.at >= b.openedAt + b.config.openDuration))
  {
  }

  lemma AfterOneMore(tool: Tool, override: Option<C.Config>, msgs: seq<Msg>, m: Msg)
    ensures After(tool, override, msgs + [m]).sup == Handle(After(tool, override, msgs).sup, m).after
  {
    assert Front(msgs + [m]) == msgs && Last(msgs + [m]) == m;
  }

  /** A closed circuit opens on exactly the ReportFailure for its tool that completes the
      threshold. */
  lemma OpensExactlyOnReport(tool: Tool, override: Option<C.Config>, msgs: seq<Msg>, m: Msg)
    requires After(tool, override, msgs).sup.circuit.state == C.Closed
    ensures After(tool, override, msgs + [m]).sup.circuit.state != C.Closed <==>
      && m.ReportFailure? && Addressed(tool, msgs, m)
      && ReportedFailures(tool, msgs) + 1 == After(tool, override, msgs).sup.circuit.config.failureThreshold
  {
    AfterOneMore(tool, override, msgs, m);
    FailureCountIsReports(tool, override, msgs);
    ToolIsHistory(tool, override, msgs);
    EmittedTransitionsReplay(tool, override, msgs);
    HandleCircuit(After(tool, override, msgs).sup, m);
  }

  /** A tripped circuit closes on exactly a reset for its tool, or on a success reported for
      it while half-open; and a half-open one opens on exactly a failure reported for it. */
  lemma ClosesExactlyOnReport(tool: Tool, override: Option<C.Config>, msgs: seq<Msg>, m: Msg)
    ensures var before := After(tool, override, msgs).sup.circuit.state;
      var after := After(tool, override, msgs + [m]).sup.circuit.state;
      && (before != C.Closed ==>
            (after == C.Closed <==>
              Addressed(tool, msgs, m) && (m.ResetCircuit? || (m.ReportSuccess? && before == C.HalfOpen))))
      && (before == C.HalfOpen ==> (after == C.Open <==> Addressed(tool, msgs, m) && m.ReportFailure?))
  {
    AfterOneMore(tool, override, msgs, m);
    ToolIsHistory(tool, override, msgs);
    EmittedTransitionsReplay(tool, override, msgs);
    HandleCircuit(After(tool, override, msgs).sup, m);
  }

  /** An open circuit turns half-open on exactly a status request for its tool, or a check
      that gets as far as the circuit, once OpenDuration has elapsed. */
  lemma HalfOpensExactlyOn(tool: Tool, override: Option<C.Config>, msgs: seq<Msg>, m: Msg)
    requires After(tool, override, msgs).sup.circuit.state == C.Open
    ensures var b := After(tool, override, msgs).sup.circuit;
      After(tool, override, msgs + [m]).sup.circuit.state == C.HalfOpen <==>
      && Addressed(tool, msgs, m)
      && (m.GetToolStatus? || (m.CanAcceptWork? && LastTool(tool, msgs).state != Disabled && !Drained(tool, msgs)))
      && m.at >= b.openedAt + b.config.openDuration
  {
    AfterOneMore(tool, override, msgs, m);
    ToolIsHistory(tool, override, msgs);
    EmittedTransitionsReplay(tool, override, msgs);
    HandleCircuit(After(tool, override, msgs).sup, m);
  }

  /** The thresholds in force are the override's, or the defaults where it has none. */
  lemma ThresholdsInForce(tool: Tool, override: Option<C.Config>, msgs: seq<Msg>)
    ensures var c := After(tool, override, msgs).sup.circuit.config;
      && c.failureThreshold ==
           (if override.Some? && override.value.failureThreshold > 0 then override.value.failureThreshold else 5)
      && c.openDuration ==
           (if override.Some? && override.value.openDuration > 0 then override.value.openDuration else 30_000_000_000)
      && c.halfOpenMaxRequests ==
           (if override.Some? && override.value.halfOpenMaxRequests > 0 then override.value.halfOpenMaxRequests else 1)
  {
    EmittedTransitionsReplay(tool, override, msgs);
  }

  predicate HyphenFree(s: string) {
    forall i :: 0 <= i < |s| ==> s[i] != '-'
  }

  lemma UpToFirstHyphen(a: string, x: string, b: string, y: string)
    requires HyphenFree(a) && HyphenFree(b) && a + "-" + x == b + "-" + y
    ensures a == b && x == y
  {
    var whole := a + "-" + x;
    assert whole[|a|] == '-' && (b + "-" + y)[|b|] == '-';
    assert a == whole[..|a|] && b == (b + "-" + y)[..|b|];
    assert x == whole[|a| + 1..] && y == (b + "-" + y)[|b| + 1..];
  }

  /** Session names tell tenants, clients and tools apart if no tenant or client ID contains
      a hyphen. */
  lemma SessionNamesDistinct(t: string, c: string, id: string, t': string, c': string, id': string)
    requires HyphenFree(t) && HyphenFree(c) && HyphenFree(t') && HyphenFree(c')
    requires SessionName(t, c, id) == SessionName(t', c', id')
    ensures t == t' && c == c' && id == id'
  {
    assert SessionName(t, c, id)[8..] == t + "-" + (c + "-" + id);
    assert SessionName(t', c', id')[8..] == t' + "-" + (c' + "-" + id');
    UpToFirstHyphen(t, c + "-" + id, t', c' + "-" + id');
    UpToFirstHyphen(c, id, c', id');
  }

  // ---- Replies ----------------------------------------------------------------

  /** Why a check is refused, each reason exactly, in the order of the guards. */
  lemma RefusedExactly(s: Sup, id: string, at: int)
    requires C.Wf(s.circuit)
    ensures var reply := Handle(s, CanAcceptWork(id, at)).reply;
      var n := |s.sessions|;
      var open := s.circuit.state == C.Open && at < s.circuit.openedAt + s.circuit.config.openDuration;
      var full :=
        s.circuit.state == C.HalfOpen && s.circuit.halfOpenInFlight == s.circuit.config.halfOpenMaxRequests;
      var willing := id == s.tool.id && s.tool.state != Disabled && !s.draining;
      && (reply == Refuse(ToolMismatch, n) <==> id != s.tool.id)
      && (reply == Refuse(ToolDisabled, n) <==> id == s.tool.id && s.tool.state == Disabled)
      && (reply == Refuse(ToolDraining, n) <==> id == s.tool.id && s.tool.state != Disabled && s.draining)
      && (reply == Refuse(CircuitOpen, n) <==> willing && open)
      && (reply == Refuse(HalfOpenLimit, n) <==> willing && full)
      && (reply == Refuse(BackpressureCap, n) <==> willing && !open && !full && 0 < s.tool.maxSessions <= n)
      && (reply == Accept(n) <==> willing && !open && !full && !(0 < s.tool.maxSessions <= n))
  {
  }

  /** Over any run a check is refused as draining exactly when a DrainTool for the enabled or
      degraded tool has not been undone by a refresh that found it enabled. */
  lemma DrainRefusesExactly(tool: Tool, override: Option<C.Config>, msgs: seq<Msg>, at: int)
    ensures var t := LastTool(tool, msgs);
      var s := After(tool, override, msgs).sup;
      Handle(s, CanAcceptWork(t.id, at)).reply == Refuse(ToolDraining, |s.sessions|) <==>
        t.state != Disabled && Drained(tool, msgs)
  {
    ToolIsHistory(tool, override, msgs);
    EmittedTransitionsReplay(tool, override, msgs);
    RefusedExactly(After(tool, override, msgs).sup, LastTool(tool, msgs).id, at);
  }

  /** A status tells the tool, whether it is drained, the number of sessions and the circuit
      as it is at that instant; for another tool's ID there is none. */
  lemma StatusIsHistory(tool: Tool, override: Option<C.Config>, msgs: seq<Msg>, id: string, at: int)
    ensures var s := After(tool, override, msgs).sup;
      var t := LastTool(tool, msgs);
      var h := Handle(s, GetToolStatus(id, at));
      if id != t.id then h.reply == Mismatch && h.after == s
      else
        && h.reply == Status(t.id, t.state, h.after.circuit.state, |s.sessions|, Drained(tool, msgs))
        && (h.after.circuit.state ==
             if s.circuit.state == C.Open && at >= s.circuit.openedAt + s.circuit.config.openDuration
             then C.HalfOpen else s.circuit.state)
  {
    ToolIsHistory(tool, override, msgs);
  }

  /** Commands are answered Done for the supervisor's own tool, Mismatch for another, and
      notifications not at all. */
  lemma RepliesExactly(s: Sup, m: Msg)
    requires !m.CanAcceptWork? && !m.GetToolStatus?
    ensures var reply := Handle(s, m).reply;
      && (reply == NoReply <==> !m.ResetCircuit? && !m.DrainTool?)
      && (reply == Done <==> (m.ResetCircuit? || m.DrainTool?) && m.toolID == s.tool.id)
      && (reply == Mismatch <==> (m.ResetCircuit? || m.DrainTool?) && m.toolID != s.tool.id)
  {
  }

  // ---- The actor itself -------------------------------------------------------

  /** The object: handlers update the fields in place. `emitted` records what
      emitTransition sends to telemetry and the journal. */
  class ToolSupervisor {
    var tool: Tool
    var circuit: C.CircuitBreaker
    var draining: bool
    var sessions: map<string, Registration>
    ghost var emitted: seq<C.Transition>

    ghost function View(): Sup
      reads this, circuit
    {
      Sup(tool, circuit.View(), draining, sessions)
    }

    constructor (t: Tool, override: Option<C.Config>)
      ensures View() == Started(t, override) && emitted == [] && fresh(circuit)
    {
      tool := t;
      circuit := new C.CircuitBreaker(if override.Some? then override.value else C.Config(0, 0, 0));
      draining := false;
      sessions := map[];
      emitted := [];
    }

    /** Receive: dispatches one message. */
    method Receive(m: Msg) returns (reply: Reply)
      modifies this, circuit
      ensures circuit == old(circuit)
      ensures View() == Handle(old(View()), m).after
      ensures reply == Handle(old(View()), m).reply
      ensures emitted == old(emitted) + Handle(old(View()), m).emitted
    {
      reply := NoReply;
      match m {
        case CanAcceptWork(id, at) =>
          reply := ReceiveCanAcceptWork(id, at);
        case ReportFailure(id, at) =>
          if id == tool.id {
            var t := circuit.DoOnFailure(at);
            EmitTransition(t);
          }
        case ReportSuccess(id, at) =>
          if id == tool.id {
            var t := circuit.DoOnSuccess(at);
            EmitTransition(t);
          }
        case SessionActivated(id, tenant, client) =>
          if id == tool.id {
            sessions := sessions[SessionName(tenant, client, id) := Registration(tenant, client)];
          }
        case SessionDeactivated(id, tenant, client) =>
          if id == tool.id {
            sessions := sessions - {SessionName(tenant, client, id)};
          }
        case RefreshToolConfig(found) =>
          if found.Some? {
            tool := found.value;
            if tool.state == Enabled {
              draining := false;
            }
          }
        case GetToolStatus(id, at) =>
          if id != tool.id {
            reply := Mismatch;
          } else {
            var state, t := circuit.DoPeek(at);
            EmitTransition(t);
            reply := Status(tool.id, tool.state, state, |sessions|, draining);
          }
        case ResetCircuit(id, at) =>
          if id != tool.id {
            reply := Mismatch;
          } else {
            var t := circuit.DoReset(at);
            EmitTransition(t);
            reply := Done;
          }
        case DrainTool(id) =>
          if id != tool.id {
            reply := Mismatch;
          } else {
            draining := true;
            reply := Done;
          }
      }
    }

    method ReceiveCanAcceptWork(id: string, at: int) returns (reply: Reply)
      modifies this, circuit
      ensures circuit == old(circuit)
      ensures View() == HandleCanAcceptWork(old(View()), id, at).after
      ensures reply == HandleCanAcceptWork(old(View()), id, at).reply
      ensures emitted == old(emitted) + HandleCanAcceptWork(old(View()), id, at).emitted
    {
      var n := |sessions|;
      if id != tool.id {
        return Refuse(ToolMismatch, n);
      }
      if tool.state == Disabled {
        return Refuse(ToolDisabled, n);
      }
      if draining {
        return Refuse(ToolDraining, n);
      }
      var outcome, t := circuit.DoAcquire(at);
      EmitTransition(t);
      match outcome {
        case RejectedOpen =>
          return Refuse(CircuitOpen, n);
        case RejectedHalfOpenLimit =>
          return Refuse(HalfOpenLimit, n);
        case Accepted =>
          if tool.maxSessions > 0 && n >= tool.maxSessions {
            return Refuse(BackpressureCap, n);
          }
          return Accept(n);
      }
    }

    method EmitTransition(t: Option<C.Transition>)
      modifies this`emitted
      ensures emitted == old(emitted) + Emit(t)
    {
      if t.Some? {
        emitted := emitted + [t.value];
      }
    }
  }
}
