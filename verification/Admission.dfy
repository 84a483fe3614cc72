/** Admission of routes to one tool: sequential routers, the supervisor's FIFO mailbox
    and session grains that announce themselves by message
    (internal/runtime/actor/router_pipeline.go, router.go, tool_supervisor.go). */
module Admission {
  import opened Basics
  import opened Tools
  import C = Circuit
  import S = Supervisor

  /** Where a route stands in the pipeline. The first five are phases of a router's slot.
      A router that stops waiting for a session or for an invocation goes on in a fresh
      slot; the old one is LateSession while its GetOrCreateSession is unanswered, LateCall
      while its invocation may still wake the grain, and Settled after that. */
  datatype Phase = Idle | Asking | Admitted | AwaitingSession | Executing | LateSession | LateCall | Settled

  datatype Session = Session(tenant: string, client: string)

  /** `want` is the session of the route being checked, `claim` that of the last
      admitted route. */
  datatype Slot = Slot(phase: Phase, want: Session, claim: Option<Session>)

  datatype Mail =
    | CheckAccept(slot: nat)
    | LateCheck                                // a check whose sender has given up
    | GetSession(slot: nat)
    | Activated(slot: nat, who: Session)
    | Told(msg: S.Msg)

  datatype Sys = Sys(toolID: string, sup: S.Sup, slots: seq<Slot>, mailbox: seq<Mail>)

  datatype Event =
    | StartRoute(slot: nat, who: Session)      // router sends CanAcceptWork
    | AskSession(slot: nat)                    // admitted router sends GetOrCreateSession
    | EndRoute(slot: nat)                      // route completes or fails
    | Reactivate(slot: nat)                    // a passivated grain is woken by the route's invocation
    | Abandon(slot: nat)                       // the router's Ask times out
    | Settle(slot: nat)                        // an invocation its router gave up on is over
    | Tell(msg: S.Msg)                         // any other message to the supervisor
    | Deliver(at: int, activates: bool, found: bool)  // the supervisor takes its next message

  const NOBODY := Session("", "")

  function Init(tool: Tool, override: Option<C.Config>, k: nat): (r: Sys)
    ensures |r.slots| == k
  {
    Sys(tool.id, S.Started(tool, override), seq(k, _ => Slot(Idle, NOBODY, None)), [])
  }

  /** Messages the rest of the system may send: everything but activations, which come
      from routes, with refreshes that leave the cap alone. */
  predicate Tellable(cap: int, m: S.Msg) {
    match m
    case SessionActivated(_, _, _) => false
    case RefreshToolConfig(found) => found.Some? ==> found.value.maxSessions == cap
    case _ => true
  }

  predicate CanTake(s: Sys, e: Event) {
    match e
    case StartRoute(i, _) => i < |s.slots| && s.slots[i].phase == Idle
    case AskSession(i) => i < |s.slots| && s.slots[i].phase == Admitted
    case EndRoute(i) => i < |s.slots| && s.slots[i].phase in {Admitted, Executing}
    case Reactivate(i) => i < |s.slots| && s.slots[i].phase in {Executing, LateCall} && s.slots[i].claim.Some?
    case Abandon(i) => i < |s.slots| && s.slots[i].phase in {Asking, AwaitingSession, Executing}
    case Settle(i) => i < |s.slots| && s.slots[i].phase == LateCall
    case Tell(m) => Tellable(s.sup.tool.maxSessions, m)
    case Deliver(_, _, _) => s.mailbox != [] && SlotOf(s.mailbox[0]) < |s.slots| + 1
  }

  /** One past the slot a mail refers to, so that mail without a slot gives 0. */
  function SlotOf(m: Mail): nat {
    match m
    case CheckAccept(i) => i + 1
    case GetSession(i) => i + 1
    case Activated(i, _) => i + 1
    case _ => 0
  }

  function SetPhase(s: Sys, i: nat, p: Phase): Sys
    requires i < |s.slots|
  {
    s.(slots := s.slots[i := s.slots[i].(phase := p)])
  }

  function Post(s: Sys, m: Mail): Sys {
    s.(mailbox := s.mailbox + [m])
  }

  function DeliverCheck(s: Sys, i: nat, at: int): Sys
    requires i < |s.slots|
  {
    var h := S.Handle(s.sup, S.CanAcceptWork(s.toolID, at));
    var slot := s.slots[i];
    var next :=
      if slot.phase != Asking then slot
      else if h.reply.Accept? then slot.(phase := Admitted, claim := Some(slot.want))
      else slot.(phase := Idle);
    s.(sup := h.after, slots := s.slots[i := next])
  }

  function DeliverGetSession(s: Sys, i: nat, activates: bool, found: bool): Sys
    requires i < |s.slots|
  {
    var slot := s.slots[i];
    var t :=
      if slot.phase == AwaitingSession then SetPhase(s, i, if found then Executing else Idle)
      else if slot.phase == LateSession then SetPhase(s, i, Settled)
      else s;
    if activates && slot.claim.Some? then Post(t, Activated(i, slot.claim.value)) else t
  }

  /** The check of slot i goes on without anyone waiting for its reply. */
  function Disown(mailbox: seq<Mail>, i: nat): (r: seq<Mail>)
    ensures |r| == |mailbox|
    ensures forall j :: 0 <= j < |r| ==> r[j] == if mailbox[j] == CheckAccept(i) then LateCheck else mailbox[j]
  {
    if mailbox == [] then []
    else Disown(Front(mailbox), i) + [if Last(mailbox) == CheckAccept(i) then LateCheck else Last(mailbox)]
  }

  /** A check given up on leaves its router idle and its late reply unread. */
  function GiveUp(s: Sys, i: nat): Sys
    requires i < |s.slots|
  {
    if s.slots[i].phase == Asking then SetPhase(s, i, Idle).(mailbox := Disown(s.mailbox, i))
    else
      var t := SetPhase(s, i, if s.slots[i].phase == Executing then LateCall else LateSession);
      t.(slots := t.slots + [Slot(Idle, NOBODY, None)])
  }

  function Step(s: Sys, e: Event): Sys
    requires CanTake(s, e)
  {
    match e
    case StartRoute(i, who) =>
      Post(s.(slots := s.slots[i := s.slots[i].(phase := Asking, want := who)]), CheckAccept(i))
    case AskSession(i) => Post(SetPhase(s, i, AwaitingSession), GetSession(i))
    case EndRoute(i) => SetPhase(s, i, Idle)
    case Reactivate(i) => Post(s, Activated(i, s.slots[i].claim.value))
    case Abandon(i) => GiveUp(s, i)
    case Settle(i) => SetPhase(s, i, Settled)
    case Tell(m) => Post(s, Told(m))
    case Deliver(at, activates, found) =>
      var t := s.(mailbox := s.mailbox[1..]);
      match s.mailbox[0]
      case CheckAccept(i) => DeliverCheck(t, i, at)
      case LateCheck => t.(sup := S.Handle(t.sup, S.CanAcceptWork(t.toolID, at)).after)
      case GetSession(i) => DeliverGetSession(t, i, activates, found)
      case Activated(_, who) =>
        t.(sup := S.Handle(t.sup, S.SessionActivated(t.toolID, who.tenant, who.client)).after)
      case Told(m) => t.(sup := S.Handle(t.sup, m).after)
  }

  predicate Run(s: Sys, es: seq<Event>)
    decreases |es|
  {
    es == [] || (CanTake(s, es[0]) && Run(Step(s, es[0]), es[1..]))
  }

  function After(s: Sys, es: seq<Event>): Sys
    requires Run(s, es)
    decreases |es|
  {
    if es == [] then s else After(Step(s, es[0]), es[1..])
  }

  // ---- Names held by sessions, pending activations and admitted routes --------

  predicate Pending(mailbox: seq<Mail>, i: nat) {
    exists j :: 0 <= j < |mailbox| && mailbox[j].Activated? && mailbox[j].slot == i
  }

  /** The slot may still cause its claimed session to be registered. */
  predicate Holds(slots: seq<Slot>, mailbox: seq<Mail>, i: nat)
    requires i < |slots|
  {
    && slots[i].claim.Some?
    && (slots[i].phase in {Admitted, AwaitingSession, Executing, LateSession, LateCall} || Pending(mailbox, i))
  }

  /** How many of the first n slots hold a name: the admitted routes in flight. */
  function Holders(slots: seq<Slot>, mailbox: seq<Mail>, n: nat): nat
    requires n <= |slots|
  {
    if n == 0 then 0 else Holders(slots, mailbox, n - 1) + if Holds(slots, mailbox, n - 1) then 1 else 0
  }

  function InFlight(s: Sys): nat {
    Holders(s.slots, s.mailbox, |s.slots|)
  }

  /** No state of the run has more than n admitted routes in flight. */
  predicate InFlightWithin(s: Sys, es: seq<Event>, n: nat)
    requires Run(s, es)
    decreases |es|
  {
    InFlight(s) <= n && (es == [] || InFlightWithin(Step(s, es[0]), es[1..], n))
  }

  function NameOf(toolID: string, who: Session): string {
    S.SessionName(who.tenant, who.client, toolID)
  }

  /** Names held by the first n slots. */
  function SlotNames(toolID: string, slots: seq<Slot>, mailbox: seq<Mail>, n: nat): (r: set<string>)
    requires n <= |slots|
    ensures |r| <= Holders(slots, mailbox, n)
  {
    if n == 0 then {}
    else
      SlotNames(toolID, slots, mailbox, n - 1) +
      (if Holds(slots, mailbox, n - 1) then {NameOf(toolID, slots[n - 1].claim.value)} else {})
  }

  /** Registered sessions together with every name that may still become one. */
  function Held(s: Sys): set<string> {
    s.sup.sessions.Keys + SlotNames(s.toolID, s.slots, s.mailbox, |s.slots|)
  }

  lemma {:induction false} SlotNamesHas(toolID: string, slots: seq<Slot>, mailbox: seq<Mail>, n: nat, i: nat)
    requires i < n <= |slots| && Holds(slots, mailbox, i)
    ensures NameOf(toolID, slots[i].claim.value) in SlotNames(toolID, slots, mailbox, n)
  {
    if i < n - 1 {
      SlotNamesHas(toolID, slots, mailbox, n - 1, i);
    }
  }

  /** Every slot that holds a name afterwards held the same name before. */
  ghost predicate NoNewHolder(slots: seq<Slot>, mailbox: seq<Mail>, slots': seq<Slot>, mailbox': seq<Mail>) {
    forall i: nat :: i < |slots'| && Holds(slots', mailbox', i) ==>
      i < |slots| && Holds(slots, mailbox, i) && slots'[i].claim == slots[i].claim
  }

  lemma {:induction false} SlotNamesShrink(
    toolID: string, slots: seq<Slot>, mailbox: seq<Mail>, slots': seq<Slot>, mailbox': seq<Mail>, n: nat)
    requires n <= |slots'| && NoNewHolder(slots, mailbox, slots', mailbox')
    ensures SlotNames(toolID, slots', mailbox', n) <= SlotNames(toolID, slots, mailbox, |slots|)
  {
    if n > 0 {
      SlotNamesShrink(toolID, slots, mailbox, slots', mailbox', n - 1);
      if Holds(slots', mailbox', n - 1) {
        SlotNamesHas(toolID, slots, mailbox, |slots|, n - 1);
      }
    }
  }

  lemma SubsetCard<T>(a: set<T>, b: set<T>)
    requires a <= b
    ensures |a| <= |b|
  {
    assert b == a + (b - a);
  }

  lemma UnionCard<T>(a: set<T>, b: set<T>)
    ensures |a + b| <= |a| + |b|
  {
    assert a + b == a + (b - a);
    SubsetCard(b - a, b);
  }

  lemma HeldShrinks(s: Sys, t: Sys)
    requires t.toolID == s.toolID && NoNewHolder(s.slots, s.mailbox, t.slots, t.mailbox)
    requires t.sup.sessions.Keys <= Held(s)
    ensures |Held(t)| <= |Held(s)|
  {
    SlotNamesShrink(s.toolID, s.slots, s.mailbox, t.slots, t.mailbox, |t.slots|);
    SubsetCard(Held(t), Held(s));
  }

  // ---- The mailbox invariant --------------------------------------------------

  predicate MailOk(cap: int, slots: seq<Slot>, m: Mail) {
    match m
    case CheckAccept(i) => i < |slots| && slots[i].phase == Asking
    case LateCheck => true
    case GetSession(i) => i < |slots| && slots[i].phase in {AwaitingSession, LateSession}
    case Activated(i, who) => i < |slots| && slots[i].claim == Some(who)
    case Told(msg) => Tellable(cap, msg)
  }

  /** What may stand behind what: a router's check is behind every activation its
      earlier routes caused, and a slot has one request of each kind outstanding. */
  predicate Ordered(first: Mail, second: Mail) {
    match first
    case CheckAccept(i) => second != first && !(second.Activated? && second.slot == i)
    case GetSession(_) => second != first
    case _ => true
  }

  ghost predicate Queue(cap: int, slots: seq<Slot>, mailbox: seq<Mail>) {
    && (forall i :: 0 <= i < |mailbox| ==> MailOk(cap, slots, mailbox[i]))
    && (forall i, j :: 0 <= i < j < |mailbox| ==> Ordered(mailbox[i], mailbox[j]))
    && (forall i :: 0 <= i < |slots| && slots[i].phase in {Admitted, AwaitingSession, Executing} ==>
          slots[i].claim.Some?)
  }

  lemma PopQueue(cap: int, slots: seq<Slot>, mailbox: seq<Mail>)
    requires mailbox != [] && Queue(cap, slots, mailbox)
    ensures Queue(cap, slots, mailbox[1..])
    ensures forall j :: 0 <= j < |mailbox[1..]| ==> Ordered(mailbox[0], mailbox[1..][j])
  {
  }

  lemma PostQueue(cap: int, slots: seq<Slot>, mailbox: seq<Mail>, m: Mail)
    requires Queue(cap, slots, mailbox) && MailOk(cap, slots, m)
    requires forall j :: 0 <= j < |mailbox| ==> Ordered(mailbox[j], m)
    ensures Queue(cap, slots, mailbox + [m])
  {
  }

  lemma MoveQueue(cap: int, slots: seq<Slot>, mailbox: seq<Mail>, i: nat, slot: Slot)
    requires i < |slots| && Queue(cap, slots, mailbox)
    requires slot.phase in {Admitted, AwaitingSession, Executing} ==> slot.claim.Some?
    requires forall j :: 0 <= j < |mailbox| ==> MailOk(cap, slots[i := slot], mailbox[j])
    ensures Queue(cap, slots[i := slot], mailbox)
  {
  }

  /** At most cap - 1 + n names are held. */
  ghost predicate Inv(s: Sys, cap: int, n: nat) {
    && cap >= 1
    && s.sup.tool.maxSessions == cap
    && Queue(cap, s.slots, s.mailbox)
    && |Held(s)| <= cap - 1 + n
  }

  lemma StartRouteKeepsInv(s: Sys, i: nat, who: Session, cap: int, n: nat)
    requires Inv(s, cap, n) && CanTake(s, StartRoute(i, who))
    ensures Inv(Step(s, StartRoute(i, who)), cap, n)
  {
    var t := Step(s, StartRoute(i, who));
    MoveQueue(cap, s.slots, s.mailbox, i, s.slots[i].(phase := Asking, want := who));
    PostQueue(cap, t.slots, s.mailbox, CheckAccept(i));
    HeldShrinks(s, t);
  }

  lemma PhaseKeepsInv(s: Sys, e: Event, cap: int, n: nat)
    requires Inv(s, cap, n) && CanTake(s, e) && (e.AskSession? || e.EndRoute? || e.Settle?)
    ensures Inv(Step(s, e), cap, n)
  {
    var t := Step(s, e);
    MoveQueue(cap, s.slots, s.mailbox, e.slot, t.slots[e.slot]);
    if e.AskSession? {
      PostQueue(cap, t.slots, s.mailbox, GetSession(e.slot));
    }
    HeldShrinks(s, t);
  }

  lemma PostKeepsInv(s: Sys, e: Event, cap: int, n: nat)
    requires Inv(s, cap, n) && CanTake(s, e) && (e.Reactivate? || e.Tell?)
    ensures Inv(Step(s, e), cap, n)
  {
    var t := Step(s, e);
    PostQueue(cap, s.slots, s.mailbox, Last(t.mailbox));
    HeldShrinks(s, t);
  }

  /** Disowning a check changes neither the order nor the activations pending. */
  lemma DisownQueue(cap: int, slots: seq<Slot>, mailbox: seq<Mail>, i: nat)
    requires i < |slots| && slots[i].phase == Asking && Queue(cap, slots, mailbox)
    ensures Queue(cap, slots[i := slots[i].(phase := Idle)], Disown(mailbox, i))
    ensures forall j: nat :: Pending(Disown(mailbox, i), j) ==> Pending(mailbox, j)
  {
    var mails := Disown(mailbox, i);
    forall j: nat | Pending(mails, j)
      ensures Pending(mailbox, j)
    {
      var p :| 0 <= p < |mails| && mails[p].Activated? && mails[p].slot == j;
      assert mailbox[p] == mails[p];
    }
  }

  lemma AbandonCheckKeepsInv(s: Sys, i: nat, cap: int, n: nat)
    requires Inv(s, cap, n) && CanTake(s, Abandon(i)) && s.slots[i].phase == Asking
    ensures Inv(Step(s, Abandon(i)), cap, n)
  {
    DisownQueue(cap, s.slots, s.mailbox, i);
    HeldShrinks(s, Step(s, Abandon(i)));
  }

  lemma AbandonSessionKeepsInv(s: Sys, i: nat, cap: int, n: nat)
    requires Inv(s, cap, n) && CanTake(s, Abandon(i)) && s.slots[i].phase != Asking
    ensures Inv(Step(s, Abandon(i)), cap, n)
  {
    var t := Step(s, Abandon(i));
    var late := t.slots[i];
    MoveQueue(cap, s.slots, s.mailbox, i, late);
    assert t.slots == s.slots[i := late] + [Slot(Idle, NOBODY, None)];
    GrowQueue(cap, s.slots[i := late], s.mailbox);
    HeldShrinks(s, t);
  }

  /** A fresh slot disturbs nothing. */
  lemma GrowQueue(cap: int, slots: seq<Slot>, mailbox: seq<Mail>)
    requires Queue(cap, slots, mailbox)
    ensures Queue(cap, slots + [Slot(Idle, NOBODY, None)], mailbox)
  {
  }

  /** A check reads the supervisor's sessions without changing them, and accepts only
      below the cap. */
  lemma CheckFacts(s: S.Sup, id: string, at: int)
    ensures var h := S.Handle(s, S.CanAcceptWork(id, at));
      && h.after.tool == s.tool
      && h.after.sessions == s.sessions
      && (h.reply.Accept? && s.tool.maxSessions >= 1 ==> |s.sessions| < s.tool.maxSessions)
  {
  }

  lemma DeliverCheckQueue(s: Sys, e: Event, cap: int)
    requires Queue(cap, s.slots, s.mailbox) && CanTake(s, e) && e.Deliver? && s.mailbox[0].CheckAccept?
    ensures Queue(cap, Step(s, e).slots, Step(s, e).mailbox)
  {
    PopQueue(cap, s.slots, s.mailbox);
    MoveQueue(cap, s.slots, s.mailbox[1..], s.mailbox[0].slot, Step(s, e).slots[s.mailbox[0].slot]);
  }

  /** The one step that adds a name: it finds fewer than cap sessions registered, so with
      the names in flight there are at most cap - 1 + n. */
  lemma DeliverCheckKeepsInv(s: Sys, e: Event, cap: int, n: nat)
    requires Inv(s, cap, n) && CanTake(s, e) && e.Deliver? && s.mailbox[0].CheckAccept?
    requires InFlight(Step(s, e)) <= n
    ensures Inv(Step(s, e), cap, n)
  {
    var t := Step(s, e);
    DeliverCheckQueue(s, e, cap);
    CheckFacts(s.sup, s.toolID, e.at);
    if t.slots[s.mailbox[0].slot].phase == Admitted {
      UnionCard(t.sup.sessions.Keys, SlotNames(t.toolID, t.slots, t.mailbox, |t.slots|));
    } else {
      assert NoNewHolder(s.slots, s.mailbox, t.slots, t.mailbox);
      HeldShrinks(s, t);
    }
  }

  lemma DeliverGetSessionQueue(s: Sys, e: Event, cap: int)
    requires Queue(cap, s.slots, s.mailbox) && CanTake(s, e) && e.Deliver? && s.mailbox[0].GetSession?
    ensures Queue(cap, Step(s, e).slots, Step(s, e).mailbox)
  {
    var t := Step(s, e);
    var rest := s.mailbox[1..];
    PopQueue(cap, s.slots, s.mailbox);
    MoveQueue(cap, s.slots, rest, s.mailbox[0].slot, t.slots[s.mailbox[0].slot]);
    if t.mailbox != rest {
      PostQueue(cap, t.slots, rest, Last(t.mailbox));
    }
  }

  lemma DeliverGetSessionKeepsInv(s: Sys, e: Event, cap: int, n: nat)
    requires Inv(s, cap, n) && CanTake(s, e) && e.Deliver? && s.mailbox[0].GetSession?
    ensures Inv(Step(s, e), cap, n)
  {
    DeliverGetSessionQueue(s, e, cap);
    HeldShrinks(s, Step(s, e));
  }

  /** An activation registers its own name; nothing else adds one, and none of these
      messages moves the cap. */
  lemma OtherFacts(s: S.Sup, m: S.Msg)
    requires m.SessionActivated? || Tellable(s.tool.maxSessions, m)
    ensures var t := S.Handle(s, m).after;
      && t.tool.maxSessions == s.tool.maxSessions
      && t.sessions.Keys <=
         s.sessions.Keys + (if m.SessionActivated? then {S.SessionName(m.tenant, m.client, m.toolID)} else {})
  {
  }

  lemma DeliverOtherKeepsInv(s: Sys, e: Event, cap: int, n: nat)
    requires Inv(s, cap, n) && CanTake(s, e) && e.Deliver?
    requires s.mailbox[0].Activated? || s.mailbox[0].Told? || s.mailbox[0].LateCheck?
    ensures Inv(Step(s, e), cap, n)
  {
    PopQueue(cap, s.slots, s.mailbox);
    match s.mailbox[0] {
      case Activated(i, who) =>
        OtherFacts(s.sup, S.SessionActivated(s.toolID, who.tenant, who.client));
        SlotNamesHas(s.toolID, s.slots, s.mailbox, |s.slots|, i);
      case Told(m) =>
        OtherFacts(s.sup, m);
      case LateCheck =>
        CheckFacts(s.sup, s.toolID, e.at);
    }
    HeldShrinks(s, Step(s, e));
  }

  lemma DeliverKeepsInv(s: Sys, e: Event, cap: int, n: nat)
    requires Inv(s, cap, n) && CanTake(s, e) && e.Deliver? && InFlight(Step(s, e)) <= n
    ensures Inv(Step(s, e), cap, n)
  {
    match s.mailbox[0] {
      case CheckAccept(_) => DeliverCheckKeepsInv(s, e, cap, n);
      case GetSession(_) => DeliverGetSessionKeepsInv(s, e, cap, n);
      case _ => DeliverOtherKeepsInv(s, e, cap, n);
    }
  }

  lemma StepKeepsInv(s: Sys, e: Event, cap: int, n: nat)
    requires Inv(s, cap, n) && CanTake(s, e) && InFlight(Step(s, e)) <= n
    ensures Inv(Step(s, e), cap, n)
  {
    match e
    case StartRoute(i, who) => StartRouteKeepsInv(s, i, who, cap, n);
    case Abandon(i) =>
      if s.slots[i].phase == Asking {
        AbandonCheckKeepsInv(s, i, cap, n);
      } else {
        AbandonSessionKeepsInv(s, i, cap, n);
      }
    case Deliver(_, _, _) => DeliverKeepsInv(s, e, cap, n);
    case AskSession(_) => PhaseKeepsInv(s, e, cap, n);
    case EndRoute(_) => PhaseKeepsInv(s, e, cap, n);
    case Settle(_) => PhaseKeepsInv(s, e, cap, n);
    case _ => PostKeepsInv(s, e, cap, n);
  }

  lemma {:induction false} RunKeepsInv(s: Sys, es: seq<Event>, cap: int, n: nat)
    requires Inv(s, cap, n) && Run(s, es) && InFlightWithin(s, es, n)
    ensures Inv(After(s, es), cap, n)
    decreases |es|
  {
    if es != [] {
      StepKeepsInv(s, es[0], cap, n);
      RunKeepsInv(Step(s, es[0]), es[1..], cap, n);
    }
  }

  /** With a cap of at least 1 and any number of routers, however their steps, the mailbox,
      passivation, timeouts and every other message interleave: in a run that never has more
      than n admitted routes in flight, registered sessions plus names still on their way
      stay within cap - 1 + n. */
  lemma SessionBound(tool: Tool, override: Option<C.Config>, k: nat, es: seq<Event>, n: nat)
    requires tool.maxSessions >= 1
    requires Run(Init(tool, override, k), es) && InFlightWithin(Init(tool, override, k), es, n)
    ensures |Held(After(Init(tool, override, k), es))| <= tool.maxSessions - 1 + n
    ensures |After(Init(tool, override, k), es).sup.sessions| <= tool.maxSessions - 1 + n
  {
    var s := Init(tool, override, k);
    assert NoNewHolder([], [], s.slots, []);
    SlotNamesShrink(s.toolID, [], [], s.slots, [], k);
    assert Held(s) == {};
    RunKeepsInv(s, es, tool.maxSessions, n);
    var t := After(s, es);
    SubsetCard(t.sup.sessions.Keys, Held(t));
  }

  // ---- Routers and the routes they gave up on ---------------------------------

  predicate OfRouter(p: Phase) {
    p in {Idle, Asking, Admitted, AwaitingSession, Executing}
  }

  /** How many slots belong to a router. */
  function Routers(slots: seq<Slot>): nat {
    if slots == [] then 0 else Routers(Front(slots)) + if OfRouter(Last(slots).phase) then 1 else 0
  }

  /** How many of the first n slots are routes given up on that hold a name still. */
  function Strays(slots: seq<Slot>, mailbox: seq<Mail>, n: nat): nat
    requires n <= |slots|
  {
    if n == 0 then 0
    else
      Strays(slots, mailbox, n - 1) +
      (if !OfRouter(slots[n - 1].phase) && Holds(slots, mailbox, n - 1) then 1 else 0)
  }

  /** No state of the run has more than n routes given up on and still in flight. */
  predicate StraysWithin(s: Sys, es: seq<Event>, n: nat)
    requires Run(s, es)
    decreases |es|
  {
    Strays(s.slots, s.mailbox, |s.slots|) <= n && (es == [] || StraysWithin(Step(s, es[0]), es[1..], n))
  }

  lemma {:induction false} RoutersUpdate(slots: seq<Slot>, i: nat, slot: Slot)
    requires i < |slots|
    ensures Routers(slots[i := slot]) + (if OfRouter(slots[i].phase) then 1 else 0)
         == Routers(slots) + if OfRouter(slot.phase) then 1 else 0
  {
    if i == |slots| - 1 {
      assert Front(slots[i := slot]) == Front(slots);
    } else {
      RoutersUpdate(Front(slots), i, slot);
      assert Front(slots[i := slot]) == Front(slots)[i := slot];
    }
  }

  lemma RoutersSnoc(slots: seq<Slot>, slot: Slot)
    ensures Routers(slots + [slot]) == Routers(slots) + if OfRouter(slot.phase) then 1 else 0
  {
    assert Front(slots + [slot]) == slots && Last(slots + [slot]) == slot;
  }

  lemma {:induction false} AllRouters(slots: seq<Slot>)
    requires forall i :: 0 <= i < |slots| ==> OfRouter(slots[i].phase)
    ensures Routers(slots) == |slots|
  {
    if slots != [] {
      AllRouters(Front(slots));
    }
  }

  lemma {:induction false} HoldersAreRoutersOrStrays(slots: seq<Slot>, mailbox: seq<Mail>, n: nat)
    requires n <= |slots|
    ensures Holders(slots, mailbox, n) <= Routers(slots[..n]) + Strays(slots, mailbox, n)
    ensures Strays(slots, mailbox, n) + Routers(slots[..n]) <= n
  {
    if n > 0 {
      HoldersAreRoutersOrStrays(slots, mailbox, n - 1);
      assert Front(slots[..n]) == slots[..n - 1];
    }
  }

  /** A router is never lost or gained, and slots only ever come with a route given up on. */
  lemma StepKeepsRouters(s: Sys, e: Event)
    requires CanTake(s, e)
    ensures Routers(Step(s, e).slots) == Routers(s.slots)
    ensures |s.slots| <= |Step(s, e).slots|
  {
    var t := Step(s, e);
    if e.Abandon? && s.slots[e.slot].phase != Asking {
      RoutersUpdate(s.slots, e.slot, t.slots[e.slot]);
      assert t.slots == s.slots[e.slot := t.slots[e.slot]] + [Slot(Idle, NOBODY, None)];
      RoutersSnoc(s.slots[e.slot := t.slots[e.slot]], Slot(Idle, NOBODY, None));
    } else if e.Deliver? {
      var i := SlotOf(s.mailbox[0]) - 1;
      if s.mailbox[0].CheckAccept? || s.mailbox[0].GetSession? {
        RoutersUpdate(s.slots, i, t.slots[i]);
      }
    } else if !e.Tell? && !e.Reactivate? {
      RoutersUpdate(s.slots, e.slot, t.slots[e.slot]);
    }
  }

  lemma {:induction false} StraysBoundInFlight(s: Sys, es: seq<Event>, k: nat, n: nat)
    requires Routers(s.slots) == k && Run(s, es) && StraysWithin(s, es, n)
    ensures InFlightWithin(s, es, k + n)
    decreases |es|
  {
    HoldersAreRoutersOrStrays(s.slots, s.mailbox, |s.slots|);
    assert s.slots[..|s.slots|] == s.slots;
    if es != [] {
      StepKeepsRouters(s, es[0]);
      StraysBoundInFlight(Step(s, es[0]), es[1..], k, n);
    }
  }

  /** With k routers and never more than n routes given up on and still in flight, sessions
      registered or on their way stay within cap - 1 + k + n. A check given up on does not
      count. */
  lemma RouterBound(tool: Tool, override: Option<C.Config>, k: nat, es: seq<Event>, n: nat)
    requires tool.maxSessions >= 1
    requires Run(Init(tool, override, k), es) && StraysWithin(Init(tool, override, k), es, n)
    ensures |Held(After(Init(tool, override, k), es))| <= tool.maxSessions - 1 + k + n
    ensures |After(Init(tool, override, k), es).sup.sessions| <= tool.maxSessions - 1 + k + n
  {
    AllRouters(Init(tool, override, k).slots);
    StraysBoundInFlight(Init(tool, override, k), es, k, n);
    SessionBound(tool, override, k, es, k + n);
  }

  /** A single router that waits for its sessions and invocations never passes the cap,
      whatever becomes of its checks. */
  lemma SingleRouterKeepsCap(tool: Tool, override: Option<C.Config>, es: seq<Event>)
    requires tool.maxSessions >= 1
    requires Run(Init(tool, override, 1), es) && StraysWithin(Init(tool, override, 1), es, 0)
    ensures |After(Init(tool, override, 1), es).sup.sessions| <= tool.maxSessions
  {
    RouterBound(tool, override, 1, es, 0);
  }
}
