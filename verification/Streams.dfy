/** The stream forwarder of internal/runtime/actor/session_grain.go: its body as the
    goroutine runs it, and the machine whose steps interleave with the executor that
    produces the stream, the caller that consumes it and the grain. */
module Streams {
  import opened Basics
  import opened Session

  datatype Progress = Progress(token: string, value: real, total: real, message: string)

  // ---- The goroutine's body ---------------------------------------------------

  /** The sending side of a Go channel. Sending on and closing a closed channel panic, and
      a send on a full buffer blocks, so each is a precondition. */
  class Channel<T> {
    const capacity: nat
    var sent: seq<T>
    var closed: bool

    constructor (capacity: nat)
      ensures this.capacity == capacity && sent == [] && !closed
    {
      this.capacity := capacity;
      sent, closed := [], false;
    }

    /** A send that the receiver takes, or that the buffer has room for. */
    method Send(x: T)
      requires !closed && (capacity > 0 ==> |sent| < capacity)
      modifies this
      ensures sent == old(sent) + [x] && !closed
    {
      sent := sent + [x];
    }

    method Close()
      requires !closed
      modifies this
      ensures closed && sent == old(sent)
    {
      closed := true;
    }
  }

  /** What a whole run of the forwarder does to its channels and what it reports. */
  datatype Delivery = Delivery(progress: seq<Progress>, handed: seq<ExecutionResult>, success: bool)

  /** The caller takes `patience` events and then stops receiving. Reading the source's final
      channel yields `outcome`; if the caller stopped early that read does not block. */
  function Forwarded(source: seq<Progress>, patience: nat, outcome: Option<ExecutionResult>): Delivery {
    Delivery(
      if patience < |source| then source[..patience] else source,
      if outcome.Some? then [outcome.value] else [],
      |source| <= patience && Good(outcome))
  }

  /** forwardProgress: true exactly when the source was drained. */
  method ForwardProgress(source: seq<Progress>, dst: Channel<Progress>, patience: nat) returns (consumed: bool)
    requires !dst.closed && dst.sent == [] && dst.capacity == 0
    modifies dst
    ensures consumed <==> |source| <= patience
    ensures dst.sent == (if consumed then source else source[..patience]) && !dst.closed
  {
    for i := 0 to |source|
      invariant i <= patience && dst.sent == source[..i] && !dst.closed
    {
      if i < patience {
        dst.Send(source[i]);
      } else {
        return false;
      }
    }
    return true;
  }

  /** forwardStream up to its deferred calls: no send meets a closed or full channel, and
      each channel is closed once. */
  method ForwardStream(source: seq<Progress>, patience: nat, outcome: Option<ExecutionResult>,
      progress: Channel<Progress>, final: Channel<ExecutionResult>) returns (reported: bool)
    requires !progress.closed && progress.sent == [] && progress.capacity == 0
    requires !final.closed && final.sent == [] && final.capacity == 1
    modifies progress, final
    ensures Delivery(progress.sent, final.sent, reported) == Forwarded(source, patience, outcome)
    ensures progress.closed && final.closed
  {
    var consumed := ForwardProgress(source, progress, patience);
    progress.Close();
    if !consumed {
      if outcome.Some? && |final.sent| < final.capacity {
        final.Send(outcome.value);
      }
      final.Close();
      return Good(None);
    }
    if outcome.Some? {
      final.Send(outcome.value);
    }
    final.Close();
    return Good(outcome);
  }

  // ---- The forwarder as an interleaved machine --------------------------------

  /** Where the goroutine stands. The deferred calls run last to first: cancel, then Done. */
  datatype PC =
    | Pulling
    | Offering
    | ClosingProgress
    | Finishing
    | Handing
    | ClosingFinal
    | Reporting
    | Cancelling
    | Signalling
    | Gone

  /** produced, sourceClosed, finals and finalsClosed are what the executor has done to the
      source's channels; the other fields are the goroutine's. atRead is what the source's
      final channel had been sent when the goroutine read it. */
  datatype Forwarder = Forwarder(
    executor: nat,
    produced: seq<Progress>,
    sourceClosed: bool,
    finals: seq<Option<ExecutionResult>>,
    finalsClosed: bool,
    pc: PC,
    abandoned: bool,
    atRead: seq<Option<ExecutionResult>>,
    outcome: Option<ExecutionResult>,
    delivered: seq<Progress>,
    progressCloses: nat,
    handed: seq<ExecutionResult>,
    finalCloses: nat,
    reports: seq<bool>,
    cancels: nat)

  function Launch(executor: nat): Forwarder {
    Forwarder(executor, [], false, [], false, Pulling, false, [], None, [], 0, [], 0, [], 0)
  }

  /** The first four are the executor's, Accept and TimeOut settle an offer, and Proceed is
      the goroutine's next own step. */
  datatype Action =
    | Produce(event: Progress)
    | CloseSource
    | ProduceFinal(result: Option<ExecutionResult>)
    | CloseFinals
    | Accept
    | TimeOut
    | Proceed

  predicate Own(a: Action) {
    a.Accept? || a.TimeOut? || a.Proceed?
  }

  predicate Enabled(f: Forwarder, a: Action) {
    match a
    case Produce(_) => !f.sourceClosed
    case CloseSource => !f.sourceClosed
    case ProduceFinal(_) => !f.finalsClosed
    case CloseFinals => !f.finalsClosed
    case Accept => f.pc.Offering?
    case TimeOut => f.pc.Offering?
    case Proceed =>
      match f.pc
      case Pulling => |f.delivered| < |f.produced| || f.sourceClosed
      case Offering => false
      case Finishing => f.abandoned || f.finals != [] || f.finalsClosed
      case Gone => false
      case _ => true
  }

  function Proceeded(f: Forwarder): Forwarder {
    match f.pc
    case Pulling => f.(pc := if |f.delivered| < |f.produced| then Offering else ClosingProgress)
    case Offering => f
    case ClosingProgress => f.(progressCloses := f.progressCloses + 1, pc := Finishing)
    case Finishing => f.(atRead := f.finals, outcome := First(f.finals), pc := Handing)
    case Handing => f.(handed := f.handed + if f.outcome.Some? then [f.outcome.value] else [], pc := ClosingFinal)
    case ClosingFinal => f.(finalCloses := f.finalCloses + 1, pc := Reporting)
    case Reporting => f.(reports := f.reports + [!f.abandoned && Good(f.outcome)], pc := Cancelling)
    case Cancelling => f.(cancels := f.cancels + 1, pc := Signalling)
    case Signalling => f.(pc := Gone)
    case Gone => f
  }

  function Act(f: Forwarder, a: Action): Forwarder {
    match a
    case Produce(e) => f.(produced := f.produced + [e])
    case CloseSource => f.(sourceClosed := true)
    case ProduceFinal(r) => f.(finals := f.finals + [r])
    case CloseFinals => f.(finalsClosed := true)
    case Accept =>
      if |f.delivered| < |f.produced|
      then f.(delivered := f.delivered + [f.produced[|f.delivered|]], pc := Pulling)
      else f.(pc := Pulling)
    case TimeOut => f.(abandoned := true, pc := ClosingProgress)
    case Proceed => Proceeded(f)
  }

  function Rank(pc: PC): nat {
    match pc
    case Pulling => 0
    case Offering => 1
    case ClosingProgress => 2
    case Finishing => 3
    case Handing => 4
    case ClosingFinal => 5
    case Reporting => 6
    case Cancelling => 7
    case Signalling => 8
    case Gone => 9
  }

  /** What a receive from the source's final channel yields. */
  function First(finals: seq<Option<ExecutionResult>>): Option<ExecutionResult> {
    if finals != [] then finals[0] else None
  }

  function Bit(b: bool): nat {
    if b then 1 else 0
  }

  /** The caller holds a prefix of what was produced, all of it once a caller that stayed has
      drained the source; the progress channel has been closed exactly once if the goroutine
      is past that statement and never before. */
  ghost predicate ProgressSound(f: Forwarder) {
    && f.delivered <= f.produced
    && (f.pc.Offering? || f.abandoned ==> |f.delivered| < |f.produced|)
    && (f.abandoned ==> Rank(f.pc) >= 2)
    && (Rank(f.pc) >= 2 && !f.abandoned ==> f.sourceClosed && f.delivered == f.produced)
    && f.progressCloses == Bit(Rank(f.pc) >= 3)
  }

  /** The outcome is what the one read of the source's final channel yielded. */
  ghost predicate ReadSound(f: Forwarder) {
    Rank(f.pc) >= 4 ==>
      && f.atRead <= f.finals
      && f.outcome == First(f.atRead)
      && (!f.abandoned && f.atRead == [] ==> f.finalsClosed && f.finals == [])
  }

  /** The final channel has been sent to and closed, the outcome reported and the context
      cancelled exactly once if the goroutine is past that statement and never before. */
  ghost predicate FinalSound(f: Forwarder) {
    && f.handed == (if Rank(f.pc) >= 5 && f.outcome.Some? then [f.outcome.value] else [])
    && f.finalCloses == Bit(Rank(f.pc) >= 6)
    && f.reports == (if Rank(f.pc) >= 7 then [!f.abandoned && Good(f.outcome)] else [])
    && f.cancels == Bit(Rank(f.pc) >= 8)
  }

  ghost predicate Sound(f: Forwarder) {
    ProgressSound(f) && ReadSound(f) && FinalSound(f)
  }

  lemma LaunchSound(executor: nat)
    ensures Sound(Launch(executor))
  {
  }

  lemma SourceKeepsSound(f: Forwarder, a: Action)
    requires Sound(f) && Enabled(f, a) && !Own(a)
    ensures Sound(Act(f, a))
  {
    if a.Produce? {
      assert (f.produced + [a.event])[..|f.delivered|] == f.produced[..|f.delivered|];
    } else if a.ProduceFinal? {
      assert (f.finals + [a.result])[..|f.finals|] == f.finals;
    }
  }

  lemma OfferKeepsSound(f: Forwarder, a: Action)
    requires Sound(f) && Enabled(f, a) && (a.Accept? || a.TimeOut?)
    ensures Sound(Act(f, a))
  {
  }

  lemma ProceedKeepsProgress(f: Forwarder)
    requires ProgressSound(f) && Enabled(f, Proceed)
    ensures ProgressSound(Proceeded(f))
  {
  }

  lemma ProceedKeepsRead(f: Forwarder)
    requires ReadSound(f) && Enabled(f, Proceed)
    ensures ReadSound(Proceeded(f))
  {
  }

  lemma ProceedKeepsFinal(f: Forwarder)
    requires FinalSound(f) && Enabled(f, Proceed)
    ensures FinalSound(Proceeded(f))
  {
    match f.pc
    case Handing => assert f.handed == [];
    case Reporting => assert f.reports == [];
    case _ =>
  }

  /** Every step of the executor, the caller or the goroutine keeps it so. */
  lemma ActKeepsSound(f: Forwarder, a: Action)
    requires Sound(f) && Enabled(f, a)
    ensures Sound(Act(f, a))
  {
    if a.Proceed? {
      ProceedKeepsProgress(f);
      ProceedKeepsRead(f);
      ProceedKeepsFinal(f);
    } else if Own(a) {
      OfferKeepsSound(f, a);
    } else {
      SourceKeepsSound(f, a);
    }
  }

  /** The two guarantees Go gives no second chance at: a progress event is only ever offered
      on an open channel, and a final result only on an open channel with an empty buffer. */
  lemma SendsAreSafe(f: Forwarder)
    requires Sound(f)
    ensures f.pc.Offering? ==> f.progressCloses == 0
    ensures f.pc.ClosingProgress? ==> f.progressCloses == 0
    ensures f.pc.Handing? ==> f.finalCloses == 0 && f.handed == []
    ensures f.pc.ClosingFinal? ==> f.finalCloses == 0 && |f.handed| <= 1
  {
  }

  /** However the steps interleave, a finished forwarder has done what its body does when run
      alone: on all that was produced if the caller stayed, and on the events the caller took
      before the one it left waiting if not. */
  lemma FinishedMatchesBody(f: Forwarder)
    requires Sound(f) && f.pc.Gone?
    ensures var patience := if f.abandoned then |f.delivered| else |f.produced|;
      && f.reports == [Forwarded(f.produced, patience, f.outcome).success]
      && Delivery(f.delivered, f.handed, f.reports[0]) == Forwarded(f.produced, patience, f.outcome)
    ensures f.progressCloses == 1 && f.finalCloses == 1 && f.cancels == 1
    ensures !f.abandoned ==> f.delivered == f.produced && f.sourceClosed && f.outcome == First(f.finals)
    ensures f.outcome == First(f.atRead) && f.atRead <= f.finals
  {
  }

  // ---- Whole lives of a forwarder ---------------------------------------------

  predicate Playable(f: Forwarder, actions: seq<Action>) {
    actions == [] || (Playable(f, Front(actions)) && Enabled(Play(f, Front(actions)), Last(actions)))
  }

  function Play(f: Forwarder, actions: seq<Action>): Forwarder {
    if actions == [] then f else Act(Play(f, Front(actions)), Last(actions))
  }

  lemma PlayOneMore(f: Forwarder, actions: seq<Action>, a: Action)
    requires Playable(f, actions) && Enabled(Play(f, actions), a)
    ensures Playable(f, actions + [a]) && Play(f, actions + [a]) == Act(Play(f, actions), a)
  {
    assert Front(actions + [a]) == actions;
  }

  lemma ProceedMovesOn(f: Forwarder)
    requires 4 <= Rank(f.pc) <= 8
    ensures Enabled(f, Proceed) && Rank(Act(f, Proceed).pc) == Rank(f.pc) + 1
    ensures Act(f, Proceed).abandoned == f.abandoned && Act(f, Proceed).outcome == f.outcome
  {
  }

  /** From the moment the final channel has been read the goroutine runs to its end alone. */
  lemma PlayToEnd(f: Forwarder, actions: seq<Action>) returns (all: seq<Action>)
    requires Playable(f, actions) && Play(f, actions).pc.Handing?
    ensures Playable(f, all) && Play(f, all).pc.Gone?
    ensures Play(f, all).abandoned == Play(f, actions).abandoned
    ensures Play(f, all).outcome == Play(f, actions).outcome
  {
    all := actions;
    ghost var g := Play(f, actions);
    for i := 0 to 5
      invariant Playable(f, all) && Play(f, all) == g && Rank(g.pc) == 4 + i
      invariant g.abandoned == Play(f, actions).abandoned && g.outcome == Play(f, actions).outcome
    {
      ProceedMovesOn(g);
      PlayOneMore(f, all, Proceed);
      all, g := all + [Proceed], Act(g, Proceed);
    }
  }

  /** A caller that leaves before the first event, with the final result there when the
      goroutine looks for it or not. */
  lemma PlayAbandoned(f: Forwarder, e: Progress, r: ExecutionResult, inTime: bool) returns (all: seq<Action>)
    requires exists x :: f == Launch(x)
    ensures Playable(f, all) && Play(f, all).pc.Gone? && Play(f, all).abandoned
    ensures Play(f, all).outcome == if inTime then Some(r) else None
  {
    PlayOneMore(f, [], Produce(e));
    PlayOneMore(f, [Produce(e)], Proceed);
    all := [Produce(e)] + [Proceed];
    PlayOneMore(f, all, TimeOut);
    all := all + [TimeOut];
    PlayOneMore(f, all, Proceed);
    all := all + [Proceed];
    if inTime {
      PlayOneMore(f, all, ProduceFinal(Some(r)));
      all := all + [ProduceFinal(Some(r))];
    }
    PlayOneMore(f, all, Proceed);
    all := PlayToEnd(f, all + [Proceed]);
  }

  /** A caller that stays, with a source that sends `result` on its final channel. */
  lemma PlayAttended(f: Forwarder, result: Option<ExecutionResult>) returns (all: seq<Action>)
    requires exists x :: f == Launch(x)
    ensures Playable(f, all) && Play(f, all).pc.Gone? && !Play(f, all).abandoned
    ensures Play(f, all).outcome == result
  {
    PlayOneMore(f, [], CloseSource);
    PlayOneMore(f, [CloseSource], ProduceFinal(result));
    all := [CloseSource] + [ProduceFinal(result)];
    PlayOneMore(f, all, Proceed);
    all := all + [Proceed];
    PlayOneMore(f, all, Proceed);
    all := all + [Proceed];
    PlayOneMore(f, all, Proceed);
    all := PlayToEnd(f, all + [Proceed]);
  }

  // ---- Termination of the goroutine -------------------------------------------

  /** The goroutine's own steps still to come once the source is closed. */
  function Remaining(f: Forwarder): int {
    match f.pc
    case Pulling => 2 * (|f.produced| - |f.delivered|) + 10
    case Offering => 2 * (|f.produced| - |f.delivered|) + 9
    case _ => 10 - Rank(f.pc)
  }

  /** Once the executor has closed both channels the goroutine never blocks, and every step
      it takes brings it closer to its end, whatever the caller does. */
  lemma GoroutineEnds(f: Forwarder, a: Action)
    requires Sound(f) && f.sourceClosed && f.finalsClosed && !f.pc.Gone?
    ensures Enabled(f, if f.pc.Offering? then TimeOut else Proceed)
    ensures Enabled(f, a) ==> Own(a) && 0 <= Remaining(Act(f, a)) < Remaining(f)
  {
  }
}
