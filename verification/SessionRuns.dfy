/** Whole runs of a session: one identity's grain, activated and deactivated any number of
    times, with every stream forwarder it started running beside it in any interleaving. */
module SessionRuns {
  import opened Basics
  import opened Session
  import opened Streams

  /** Waiting: the mailbox is quiesced and OnDeactivate is in streams.Wait. */
  datatype Phase = Idle | Active | Waiting

  datatype System = System(phase: Phase, grain: Grain, forwarders: seq<Forwarder>)

  datatype Event =
    | Activate(dependency: Option<string>, creation: Creation)
    | Receive(message: Message, env: Env)
    | Quiesce
    | Deactivate
    | Forward(index: nat, action: Action)

  const START := System(Idle, Grain("", None, 0, 0, []), [])

  predicate CanHappen(s: System, e: Event) {
    match e
    case Activate(_, _) => s.phase.Idle?
    case Receive(_, _) => s.phase.Active?
    case Quiesce => s.phase.Active?
    case Deactivate => s.phase.Waiting? && s.grain.streams == 0
    case Forward(i, a) => i < |s.forwarders| && Enabled(s.forwarders[i], a)
  }

  /** A forwarder's report goes to the supervisor and its Done to the grain's WaitGroup. */
  function Felt(g: Grain, f: Forwarder, a: Action): Grain {
    if !a.Proceed? then g
    else if f.pc.Reporting? then Emit(g, [Reported(!f.abandoned && Good(f.outcome))])
    else if f.pc.Signalling? && g.streams > 0 then g.(streams := g.streams - 1)
    else g
  }

  /** An event that cannot happen changes nothing. */
  function Next(s: System, e: Event): System {
    if !CanHappen(s, e) then s
    else match e
      case Activate(dependency, c) =>
        if Activates(dependency, c)
        then System(Active, Activated(s.grain.(streams := 0), dependency.value, c), s.forwarders)
        else s
      case Receive(m, env) =>
        Received(s, Handle(s.grain, m, env))
      case Quiesce => s.(phase := Waiting)
      case Deactivate => System(Idle, Deactivated(s.grain), s.forwarders)
      case Forward(i, a) =>
        s.(grain := Felt(s.grain, s.forwarders[i], a),
           forwarders := s.forwarders[i := Act(s.forwarders[i], a)])
  }

  function After(run: seq<Event>): System {
    if run == [] then START else Next(After(Front(run)), Last(run))
  }

  // ---- Counting forwarders ----------------------------------------------------

  function Count(p: Forwarder -> bool, fs: seq<Forwarder>): nat {
    if fs == [] then 0 else Count(p, Front(fs)) + Bit(p(Last(fs)))
  }

  predicate Busy(f: Forwarder) {
    !f.pc.Gone?
  }

  predicate Untold(f: Forwarder) {
    Rank(f.pc) < 7
  }

  lemma CountSnoc(p: Forwarder -> bool, fs: seq<Forwarder>, f: Forwarder)
    ensures Count(p, fs + [f]) == Count(p, fs) + Bit(p(f))
  {
    assert Front(fs + [f]) == fs && Last(fs + [f]) == f;
  }

  lemma {:induction false} CountUpdate(p: Forwarder -> bool, fs: seq<Forwarder>, i: nat, f: Forwarder)
    requires i < |fs|
    ensures Count(p, fs[i := f]) + Bit(p(fs[i])) == Count(p, fs) + Bit(p(f))
  {
    if i == |fs| - 1 {
      assert Front(fs[i := f]) == Front(fs);
    } else {
      CountUpdate(p, Front(fs), i, f);
      assert Front(fs[i := f]) == Front(fs)[i := f];
    }
  }

  lemma {:induction false} CountZero(p: Forwarder -> bool, fs: seq<Forwarder>)
    ensures Count(p, fs) == 0 <==> forall i :: 0 <= i < |fs| ==> !p(fs[i])
  {
    if fs != [] {
      CountZero(p, Front(fs));
      assert fs == Front(fs) + [Last(fs)];
    }
  }

  // ---- The invariant ----------------------------------------------------------

  ghost predicate AllSound(s: System) {
    forall i :: 0 <= i < |s.forwarders| ==> Sound(s.forwarders[i]) && s.forwarders[i].executor < s.grain.created
  }

  /** The grain owns the only open executor, no executor is open while it is inactive, and
      the WaitGroup counts exactly the forwarders still running. */
  ghost predicate Inv(s: System) {
    && Owns(s.grain)
    && AllSound(s)
    && s.grain.streams == Count(Busy, s.forwarders)
    && (s.phase.Idle? ==> s.grain.executor.None? && s.grain.streams == 0)
  }

  /** The system after the grain has handled a message with this step. */
  function Received(s: System, step: Session.Step): System {
    System(Active, step.after,
           s.forwarders + if step.reply.Streaming? then [Launch(step.reply.executor)] else [])
  }

  lemma ReceivedKeepsInv(s: System, step: Session.Step)
    requires Inv(s) && Owns(step.after) && s.grain.created <= step.after.created
    requires step.after.streams == s.grain.streams + (if step.reply.Streaming? then 1 else 0)
    requires step.reply.Streaming? ==> step.reply.executor < step.after.created
    ensures Inv(Received(s, step))
  {
    if step.reply.Streaming? {
      LaunchSound(step.reply.executor);
      CountSnoc(Busy, s.forwarders, Launch(step.reply.executor));
    } else {
      assert s.forwarders + [] == s.forwarders;
    }
  }

  lemma ReceiveKeepsInv(s: System, e: Event)
    requires Inv(s) && e.Receive? && CanHappen(s, e)
    ensures Inv(Next(s, e))
  {
    HandleKeepsOwns(s.grain, e.message, e.env);
    ReceivedKeepsInv(s, Handle(s.grain, e.message, e.env));
  }

  predicate Tells(f: Forwarder, a: Action) {
    a.Proceed? && f.pc.Reporting?
  }

  predicate Signals(f: Forwarder, a: Action) {
    a.Proceed? && f.pc.Signalling?
  }

  /** The report is what ends a forwarder's being untold, and Done what ends its being busy. */
  lemma ActMoves(f: Forwarder, a: Action)
    requires Enabled(f, a)
    ensures Bit(Busy(f)) == Bit(Busy(Act(f, a))) + Bit(Signals(f, a))
    ensures Bit(Untold(f)) == Bit(Untold(Act(f, a))) + Bit(Tells(f, a))
    ensures Act(f, a).executor == f.executor
  {
  }

  lemma FeltKeepsOwns(g: Grain, f: Forwarder, a: Action)
    requires Owns(g)
    ensures Owns(Felt(g, f, a)) && Grew(g, Felt(g, f, a), 0, 0, Bit(Tells(f, a)))
    ensures Felt(g, f, a).executor == g.executor && Felt(g, f, a).created == g.created
    ensures Felt(g, f, a).streams == g.streams - Bit(Signals(f, a) && g.streams > 0)
  {
    ReportKeepsOwns(g, !f.abandoned && Good(f.outcome));
  }

  lemma ForwardKeepsInv(s: System, e: Event)
    requires Inv(s) && e.Forward? && CanHappen(s, e)
    ensures Inv(Next(s, e))
  {
    var f := s.forwarders[e.index];
    var f' := Act(f, e.action);
    ActKeepsSound(f, e.action);
    ActMoves(f, e.action);
    CountUpdate(Busy, s.forwarders, e.index, f');
    FeltKeepsOwns(s.grain, f, e.action);
    assert Next(s, e) == System(s.phase, Felt(s.grain, f, e.action), s.forwarders[e.index := f']);
  }

  lemma NextKeepsInv(s: System, e: Event)
    requires Inv(s)
    ensures Inv(Next(s, e))
  {
    if CanHappen(s, e) {
      match e
      case Activate(dependency, c) =>
        if Activates(dependency, c) {
          ActivationKeepsOwns(s.grain.(streams := 0), dependency.value, c);
        }
      case Receive(_, _) => ReceiveKeepsInv(s, e);
      case Quiesce =>
      case Deactivate => DeactivationKeepsOwns(s.grain);
      case Forward(_, _) => ForwardKeepsInv(s, e);
    }
  }

  lemma {:induction false} RunKeepsInv(run: seq<Event>)
    ensures Inv(After(run))
  {
    if run != [] {
      RunKeepsInv(Front(run));
      NextKeepsInv(After(Front(run)), Last(run));
    }
  }

  // ---- Conservation of executors ----------------------------------------------

  /** In every reachable state each executor the factory created was opened once and is
      either the installed one, never closed, or was closed exactly once; an inactive grain
      has none open. Every call and every close went to an executor open at that moment. */
  lemma ExecutorsAreConserved(run: seq<Event>, id: nat)
    ensures var s := After(run);
      var installed := s.grain.executor.Some? && s.grain.executor.value.id == id;
      && Legal(s.grain.log)
      && multiset(s.grain.log)[Opened(id)] == Bit(id < s.grain.created)
      && (installed ==> id < s.grain.created)
      && multiset(s.grain.log)[Closed(id)] == Bit(id < s.grain.created && !installed)
      && (s.phase.Idle? ==> !installed)
  {
    RunKeepsInv(run);
    LegalMeansOnce(After(run).grain.log, id);
  }

  // ---- Conservation of reports ------------------------------------------------

  predicate Serves(s: System, e: Event) {
    e.Receive? && CanHappen(s, e) && Accepts(s.grain, e.message)
  }

  predicate CrashesAt(s: System, e: Event) {
    Serves(s, e) && e.message.Invoke? && Crashes(s.grain, e.message.invocation.value, e.env)
  }

  /** The valid invocations, streaming or not, that the run's grain served. */
  function Served(run: seq<Event>): nat {
    if run == [] then 0 else Served(Front(run)) + Bit(Serves(After(Front(run)), Last(run)))
  }

  function Crashed(run: seq<Event>): nat {
    if run == [] then 0 else Crashed(Front(run)) + Bit(CrashesAt(After(Front(run)), Last(run)))
  }

  lemma NextReports(s: System, e: Event)
    requires Inv(s)
    ensures var t := Next(s, e);
      Reports(t.grain.log) + Count(Untold, t.forwarders) + Bit(CrashesAt(s, e))
        == Reports(s.grain.log) + Count(Untold, s.forwarders) + Bit(Serves(s, e))
  {
    if CanHappen(s, e) {
      match e
      case Activate(dependency, c) =>
        if Activates(dependency, c) {
          ActivationKeepsOwns(s.grain.(streams := 0), dependency.value, c);
        }
      case Receive(m, env) =>
        HandleGrows(s.grain, m, env);
        ReceivedOwes(s, Handle(s.grain, m, env));
      case Quiesce =>
      case Deactivate => DeactivationKeepsOwns(s.grain);
      case Forward(i, a) =>
        ActMoves(s.forwarders[i], a);
        CountUpdate(Untold, s.forwarders, i, Act(s.forwarders[i], a));
        FeltKeepsOwns(s.grain, s.forwarders[i], a);
    }
  }

  lemma ReceivedOwes(s: System, step: Session.Step)
    ensures Count(Untold, Received(s, step).forwarders) == Count(Untold, s.forwarders) + Bit(step.reply.Streaming?)
  {
    if step.reply.Streaming? {
      CountSnoc(Untold, s.forwarders, Launch(step.reply.executor));
    } else {
      assert s.forwarders + [] == s.forwarders;
    }
  }

  /** Over any run, every valid invocation is reported exactly once: at once, or by its
      forwarder, or, if it crashed on a nil executor, never. */
  lemma {:induction false} ReportsAreConserved(run: seq<Event>)
    ensures Reports(After(run).grain.log) + Count(Untold, After(run).forwarders) + Crashed(run) == Served(run)
  {
    if run != [] {
      ReportsAreConserved(Front(run));
      RunKeepsInv(Front(run));
      NextReports(After(Front(run)), Last(run));
    }
  }

  /** A factory that returns a non-nil executor or an error whenever a message is served. */
  predicate NeverNil(run: seq<Event>) {
    forall i :: 0 <= i < |run| && run[i].Receive? ==> !run[i].env.creation.CreatedNil?
  }

  lemma {:induction false} NoNilNoCrash(run: seq<Event>)
    requires NeverNil(run)
    ensures Crashed(run) == 0
  {
    if run != [] {
      NoNilNoCrash(Front(run));
    }
  }

  /** With such a factory, a deactivated grain has reported every invocation it served. */
  lemma AllReportedWhenIdle(run: seq<Event>)
    requires NeverNil(run) && After(run).phase.Idle?
    ensures Reports(After(run).grain.log) == Served(run)
  {
    ReportsAreConserved(run);
    NoNilNoCrash(run);
    RunKeepsInv(run);
    GoneAreTold(After(run).forwarders);
  }

  lemma GoneAreTold(fs: seq<Forwarder>)
    ensures Count(Busy, fs) == 0 ==> Count(Untold, fs) == 0
  {
    CountZero(Busy, fs);
    CountZero(Untold, fs);
  }

  /** Over any run the executors are called at most twice per invocation served. */
  lemma {:induction false} CallsAreBounded(run: seq<Event>)
    ensures Calls(After(run).grain.log) <= 2 * Served(run)
  {
    if run != [] {
      CallsAreBounded(Front(run));
      RunKeepsInv(Front(run));
      NextCalls(After(Front(run)), Last(run));
    }
  }

  lemma NextCalls(s: System, e: Event)
    requires Inv(s)
    ensures Calls(Next(s, e).grain.log) <= Calls(s.grain.log) + 2 * Bit(Serves(s, e))
  {
    if CanHappen(s, e) {
      match e
      case Activate(dependency, c) =>
        if Activates(dependency, c) {
          ActivationKeepsOwns(s.grain.(streams := 0), dependency.value, c);
        }
      case Receive(m, env) => HandleGrows(s.grain, m, env);
      case Quiesce =>
      case Deactivate => DeactivationKeepsOwns(s.grain);
      case Forward(i, a) => FeltKeepsOwns(s.grain, s.forwarders[i], a);
    }
  }

  // ---- Streams ----------------------------------------------------------------

  /** What the caller of stream f ends up with, and what the supervisor is told. The caller
      is handed what the one read of the source's final channel yielded, and nothing if that
      was nil, whether it left or stayed; a caller that stayed gets the first result sent. */
  ghost predicate Complete(f: Forwarder) {
    && f.pc.Gone? && f.delivered <= f.produced
    && (f.abandoned || (f.delivered == f.produced && f.sourceClosed))
    && f.progressCloses == 1 && f.finalCloses == 1 && f.cancels == 1
    && f.atRead <= f.finals && (f.abandoned || First(f.atRead) == First(f.finals))
    && f.handed == (if First(f.atRead).Some? then [First(f.atRead).value] else [])
    && f.reports == [!f.abandoned && Good(First(f.finals))]
  }

  lemma GoneIsComplete(f: Forwarder)
    requires Sound(f)
    ensures f.pc.Gone? <==> Complete(f)
  {
  }

  /** Deactivation proceeds past its wait exactly when every stream ever started has
      delivered, closed both channels, reported and cancelled. */
  lemma DeactivationWaitsForStreams(run: seq<Event>)
    requires After(run).phase.Waiting?
    ensures CanHappen(After(run), Deactivate) <==>
            forall i :: 0 <= i < |After(run).forwarders| ==> Complete(After(run).forwarders[i])
  {
    RunKeepsInv(run);
    var s := After(run);
    CountZero(Busy, s.forwarders);
    forall i | 0 <= i < |s.forwarders|
      ensures Busy(s.forwarders[i]) <==> !Complete(s.forwarders[i])
    {
      GoneIsComplete(s.forwarders[i]);
    }
  }

  /** At every moment of every run each stream's caller holds a prefix of what was produced,
      in order, and at most one final result; no channel is closed twice and no outcome
      reported twice; and no send can meet a closed channel or a full buffer. */
  lemma StreamsAreSafe(run: seq<Event>, i: nat)
    requires i < |After(run).forwarders|
    ensures var f := After(run).forwarders[i];
      && f.delivered <= f.produced && |f.handed| <= 1
      && f.progressCloses <= 1 && f.finalCloses <= 1 && |f.reports| <= 1 && f.cancels <= 1
      && (f.pc.Offering? ==> f.progressCloses == 0)
      && (f.pc.Handing? ==> f.finalCloses == 0 && f.handed == [])
      && (f.pc.Gone? ==> Complete(f))
  {
    RunKeepsInv(run);
    SendsAreSafe(After(run).forwarders[i]);
    GoneIsComplete(After(run).forwarders[i]);
  }

  /** A finished stream delivered exactly one final result, as documented, if and only if
      the final channel held a non-nil result when the forwarder read it. */
  lemma OneFinalExactlyWhen(run: seq<Event>, i: nat)
    requires i < |After(run).forwarders| && After(run).forwarders[i].pc.Gone?
    ensures var f := After(run).forwarders[i];
      |f.handed| == 1 <==> f.atRead != [] && f.atRead[0].Some?
  {
    StreamsAreSafe(run, i);
  }

  const STREAMING := Executor(0, true, false)

  /** The grain is activated with a streaming executor and starts one stream. */
  function Opening(): seq<Event> {
    [Activate(Some("t"), Created(true, false)),
     Receive(InvokeStream(Some(Invocation("t", false))),
             Env(DROPPED, Created(true, false), Answer(false, Some(Stub(1)), 1), false))]
  }

  lemma OpeningRun()
    ensures After(Opening()) ==
      System(Active, Grain("t", Some(STREAMING), 1, 1, [Opened(0), Called(0)]), [Launch(0)])
  {
    var e0, e1 := Opening()[0], Opening()[1];
    assert After([]) == START;
    assert After([e0]) == System(Active, Grain("t", Some(STREAMING), 0, 1, [Opened(0)]), []) by {
      assert Front([e0]) == [];
    }
    assert Front([e0, e1]) == [e0];
  }

  /** Every life of a forwarder is part of a run of the whole system. */
  lemma {:induction false} PlayIsRun(actions: seq<Action>) returns (run: seq<Event>)
    requires Playable(Launch(0), actions)
    ensures After(run).forwarders == [Play(Launch(0), actions)]
  {
    if actions == [] {
      OpeningRun();
      run := Opening();
    } else {
      var before := PlayIsRun(Front(actions));
      run := before + [Forward(0, Last(actions))];
      assert Front(run) == before;
    }
  }

  /** Both sides occur, for every result, good or bad: a caller that left is handed the
      result if it was there in time, and nothing if not; it is reported as a failure either
      way. And a caller that stayed is handed nothing if the source sends nil. */
  lemma FinalsBothWays(r: ExecutionResult, inTime: bool)
    ensures exists run :: var fs := After(run).forwarders;
      |fs| == 1 && Complete(fs[0]) && fs[0].abandoned && fs[0].reports == [false] &&
      fs[0].handed == (if inTime then [r] else [])
    ensures exists run :: var fs := After(run).forwarders;
      |fs| == 1 && Complete(fs[0]) && !fs[0].abandoned && fs[0].handed == (if inTime then [r] else [])
  {
    var left := PlayAbandoned(Launch(0), Progress("", 0.0, 0.0, ""), r, inTime);
    var a := PlayIsRun(left);
    StreamsAreSafe(a, 0);
    var stayed := PlayAttended(Launch(0), if inTime then Some(r) else None);
    var b := PlayIsRun(stayed);
    StreamsAreSafe(b, 0);
    RunKeepsInv(a);
    RunKeepsInv(b);
    assert After(a).forwarders[0].outcome == First(After(a).forwarders[0].atRead);
    assert After(b).forwarders[0].outcome == First(After(b).forwarders[0].atRead);
  }

  /** A forwarder's step adds to the reports of the whole system exactly what it adds to its
      own: the outcome it read if the caller stayed, a failure if not. */
  lemma StreamReportsItsOutcome(run: seq<Event>, i: nat, a: Action)
    requires i < |After(run).forwarders| && CanHappen(After(run), Forward(i, a))
    ensures var s := After(run);
      var t := Next(s, Forward(i, a));
      var f, f' := s.forwarders[i], t.forwarders[i];
      && |f.reports| <= |f'.reports| <= 1
      && t.grain.log == s.grain.log +
           (if |f'.reports| > |f.reports| then [Reported(f'.reports[0])] else [])
      && (|f'.reports| > |f.reports| ==>
            (f'.reports[0] <==>
              !f.abandoned && First(f.finals).Some? &&
              First(f.finals).value.status == Success && First(f.finals).value.err.None?))
  {
    RunKeepsInv(run);
    var s := After(run);
    var f := s.forwarders[i];
    ActKeepsSound(f, a);
    EmptyEmit(s.grain);
  }

  /** An inactive grain becomes active exactly with a tool ID and no error of the factory,
      and then owns an executor exactly if the factory made one, with its capabilities. */
  lemma ActivatesExactlyWhen(run: seq<Event>, dependency: Option<string>, c: Creation)
    requires After(run).phase.Idle?
    ensures var s := After(run);
      var t := Next(s, Activate(dependency, c));
      && (t.phase.Active? <==> dependency.Some? && dependency.value != "" && c != CreateError)
      && (!t.phase.Active? ==> t == s)
      && (t.phase.Active? ==>
            && t.grain.toolID == dependency.value && t.grain.streams == 0
            && t.grain.executor ==
                 (if c.Created? then Some(Executor(s.grain.created, c.streams, c.resources)) else None)
            && t.grain.log == s.grain.log + (if c.Created? then [Opened(s.grain.created)] else []))
  {
    EmptyEmit(After(run).grain);
  }

  // ---- Executors under live streams -------------------------------------------

  /** A step closes the executor of a stream still running exactly when it is an invocation
      whose recovery replaces that executor: recovery does not wait for streams. */
  lemma ClosedUnderStreamExactlyWhen(run: seq<Event>, e: Event, i: nat)
    requires i < |After(run).forwarders| && CanHappen(After(run), e)
    requires Busy(After(run).forwarders[i])
    requires After(run).forwarders[i].executor in OpenIn(After(run).grain.log)
    ensures var s := After(run);
      s.forwarders[i].executor !in OpenIn(Next(s, e).grain.log) <==>
        Serves(s, e) && e.message.Invoke? && Retries(s.grain, e.message.invocation.value, e.env)
  {
    var s := After(run);
    RunKeepsInv(run);
    NextKeepsInv(s, e);
    CountZero(Busy, s.forwarders);
    if Serves(s, e) {
      if e.message.Invoke? {
        InvokeDoesOnce(s.grain, e.message.invocation.value, e.env);
        if Retries(s.grain, e.message.invocation.value, e.env) {
          ReplacementIsNew(s.grain, e.message.invocation.value, e.env);
        }
      } else {
        StreamDoesOnce(s.grain, e.env);
      }
    }
  }

  lemma ReplacementIsNew(g: Grain, inv: Invocation, env: Env)
    requires Owns(g) && Retries(g, inv, env)
    ensures g.executor.value.id !in Installed(HandleInvoke(g, inv, env).after)
  {
    OpenIsNumbered(g.log, g.executor.value.id);
  }

  /** Such a run exists: a stream is pulling from executor 0 when a transport failure of
      another call closes it. */
  lemma RecoveryClosesUnderStream()
    ensures exists run: seq<Event> ::
      var s := After(run);
      |s.forwarders| == 1 && Busy(s.forwarders[0]) && Closed(s.forwarders[0].executor) in s.grain.log
  {
    OpeningRun();
    var s2 := After(Opening());
    var e2 := Receive(Invoke(Some(Invocation("t", false))), Opening()[1].env);
    var s := Next(s2, e2);
    assert After(Opening() + [e2]) == s by {
      assert Front(Opening() + [e2]) == Opening();
    }
    assert s.forwarders == [Launch(0)];
    var back := Recovered(Emit(s2.grain, [Called(0)]), Created(true, false));
    assert back.log[4] == Closed(0);
    assert s.grain.log == back.log + [Called(1)] + [Reported(true)];
    assert s.grain.log[4] == Closed(0);
  }

  // ---- Deactivation is not stuck ----------------------------------------------

  function Total(fs: seq<Forwarder>): int {
    if fs == [] then 0 else Total(Front(fs)) + if Busy(Last(fs)) then Remaining(Last(fs)) else 0
  }

  lemma {:induction false} TotalUpdate(fs: seq<Forwarder>, i: nat, f: Forwarder)
    requires i < |fs|
    ensures Total(fs[i := f]) - Total(fs)
         == (if Busy(f) then Remaining(f) else 0) - (if Busy(fs[i]) then Remaining(fs[i]) else 0)
  {
    if i == |fs| - 1 {
      assert Front(fs[i := f]) == Front(fs);
    } else {
      TotalUpdate(Front(fs), i, f);
      assert Front(fs[i := f]) == Front(fs)[i := f];
    }
  }

  lemma {:induction false} TotalPositive(fs: seq<Forwarder>)
    requires forall i :: 0 <= i < |fs| ==> Sound(fs[i])
    ensures Total(fs) >= 0
  {
    if fs != [] {
      TotalPositive(Front(fs));
    }
  }

  /** The executors have closed the channels of every stream still running. */
  predicate SourcesClosed(s: System) {
    forall i :: 0 <= i < |s.forwarders| && Busy(s.forwarders[i]) ==>
      s.forwarders[i].sourceClosed && s.forwarders[i].finalsClosed
  }

  lemma ClosedSourceStep(f: Forwarder, a: Action)
    requires Sound(f) && Enabled(f, a) && Busy(f) && f.sourceClosed && f.finalsClosed
    ensures var f' := Act(f, a);
      Sound(f') && f'.sourceClosed && f'.finalsClosed && 0 <= Remaining(f') < Remaining(f)
  {
    GoroutineEnds(f, a);
    ActKeepsSound(f, a);
  }

  /** Once the executors have closed the channels of the running streams, no schedule of the
      forwarders and no caller puts deactivation off forever: every event of a running
      forwarder lowers Total. */
  lemma WaitingMakesProgress(s: System, e: Event)
    requires Inv(s) && s.phase.Waiting? && SourcesClosed(s) && CanHappen(s, e)
    requires e.Forward? ==> Busy(s.forwarders[e.index])
    ensures e.Deactivate? || (e.Forward? && 0 <= Total(Next(s, e).forwarders) < Total(s.forwarders))
    ensures !e.Deactivate? ==> Next(s, e).phase.Waiting? && SourcesClosed(Next(s, e))
  {
    if e.Forward? {
      var f := s.forwarders[e.index];
      var f' := Act(f, e.action);
      ClosedSourceStep(f, e.action);
      TotalUpdate(s.forwarders, e.index, f');
      assert Next(s, e).forwarders == s.forwarders[e.index := f'];
      TotalPositive(s.forwarders[e.index := f']);
    }
  }

  /** A waiting grain is never stuck: the step some running forwarder can take, or Deactivate. */
  lemma WaitingCanStep(s: System) returns (e: Event)
    requires Inv(s) && s.phase.Waiting? && SourcesClosed(s)
    ensures CanHappen(s, e)
    ensures e.Deactivate? || (e.Forward? && Busy(s.forwarders[e.index]))
  {
    CountZero(Busy, s.forwarders);
    if s.grain.streams == 0 {
      return Deactivate;
    }
    var i :| 0 <= i < |s.forwarders| && Busy(s.forwarders[i]);
    e := Forward(i, if s.forwarders[i].pc.Offering? then TimeOut else Proceed);
    GoroutineEnds(s.forwarders[i], e.action);
  }

  function Then(s: System, es: seq<Event>): System
    decreases |es|
  {
    if es == [] then s else Then(Next(s, es[0]), es[1..])
  }

  lemma ThenFirst(s: System, e: Event, rest: seq<Event>)
    ensures Then(s, [e] + rest) == Then(Next(s, e), rest)
  {
    assert ([e] + rest)[1..] == rest;
  }

  lemma {:induction false} AfterThen(run: seq<Event>, rest: seq<Event>)
    ensures After(run + rest) == Then(After(run), rest)
    decreases |rest|
  {
    if rest == [] {
      assert run + rest == run;
    } else {
      assert Front(run + [rest[0]]) == run;
      AfterThen(run + [rest[0]], rest[1..]);
      assert run + [rest[0]] + rest[1..] == run + rest;
    }
  }

  lemma {:induction false} DrainToEnd(s: System) returns (rest: seq<Event>)
    requires Inv(s) && s.phase.Waiting? && SourcesClosed(s)
    ensures Then(s, rest).phase.Idle?
    decreases Total(s.forwarders)
  {
    var e := WaitingCanStep(s);
    WaitingMakesProgress(s, e);
    rest := [];
    if !e.Deactivate? {
      NextKeepsInv(s, e);
      rest := DrainToEnd(Next(s, e));
    }
    ThenFirst(s, e, rest);
    rest := [e] + rest;
  }

  /** So every such reachable state has a continuation that deactivates the grain. */
  lemma WaitingCanEnd(run: seq<Event>) returns (rest: seq<Event>)
    requires After(run).phase.Waiting? && SourcesClosed(After(run))
    ensures After(run + rest).phase.Idle?
  {
    RunKeepsInv(run);
    rest := DrainToEnd(After(run));
    AfterThen(run, rest);
  }
}
