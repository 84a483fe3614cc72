/** A disabled tool refuses work: the registrar, its ToolConfigExtension and the mailboxes
    of the supervisors it spawns (internal/runtime/actor/registrar.go, tool_supervisor.go). */
module DisabledTools {
  import opened Basics
  import opened Tools
  import C = Circuit
  import R = Registrar
  import S = Supervisor

  /** Messages in a supervisor's mailbox. PostStart and Refresh read the extension when
      they are handled, not when they are sent. */
  datatype Mail = PostStart(override: Option<C.Config>) | Refresh | Work(msg: S.Msg)

  /** A running supervisor. Before PostStart its tool is Go's zero value. */
  datatype Live = Live(sup: S.Sup, mailbox: seq<Mail>)

  datatype Sys = Sys(reg: R.Reg, running: map<string, Live>)

  datatype Event =
    | Command(cmd: R.Cmd, override: Option<C.Config>)  // the registrar handles a command
    | Send(id: string, msg: S.Msg)                     // anyone writes to a supervisor
    | Deliver(id: string, started: bool)               // a supervisor handles its next message
    | Crash(id: string)

  const ZERO_TOOL := Tool("", OtherTransport(""), None, None, None, Options(0, 0, 0, "", "", ""), OtherState(""), 0)

  function Newborn(override: Option<C.Config>): Live {
    Live(S.Started(ZERO_TOOL, None), [PostStart(override)])
  }

  predicate CanTake(s: Sys, e: Event) {
    match e
    case Command(_, _) => true
    case Send(id, msg) => id in s.running && !msg.RefreshToolConfig?
    case Deliver(id, _) => id in s.running && s.running[id].mailbox != []
    case Crash(_) => true
  }

  /** Installing a tool stops its supervisor and, when the spawn works, starts another. */
  function Respawn(running: map<string, Live>, o: R.Offer, override: Option<C.Config>): map<string, Live> {
    if Validate(o.tool).Some? then running
    else if o.outcome.pid.Some? then running[o.tool.id := Newborn(override)]
    else running - {o.tool.id}
  }

  function RespawnAll(running: map<string, Live>, offers: seq<R.Offer>, override: Option<C.Config>): map<string, Live> {
    if offers == [] then running else Respawn(RespawnAll(running, Front(offers), override), Last(offers), override)
  }

  function Notify(running: map<string, Live>, id: Option<string>): map<string, Live> {
    if id.Some? && id.value in running then
      running[id.value := running[id.value].(mailbox := running[id.value].mailbox + [Refresh])]
    else running
  }

  function ExtensionGet(r: R.Reg, id: string): Option<Tool> {
    if id in r.extension then Some(r.extension[id]) else None
  }

  /** The supervisor of tool `id` handles one message. */
  function HandleMail(s: Sys, id: string, sup: S.Sup, m: Mail, started: bool): S.Sup {
    match m
    case PostStart(override) =>
      var found := ExtensionGet(s.reg, id);
      if found.Some? && started then S.Started(found.value, override) else sup
    case Refresh => S.Handle(sup, S.RefreshToolConfig(ExtensionGet(s.reg, id))).after
    case Work(msg) => S.Handle(sup, msg).after
  }

  function Step(s: Sys, e: Event): Sys
    requires CanTake(s, e)
  {
    match e
    case Command(c, override) =>
      var h := R.Handle(s.reg, c);
      var running := match c
        case RegisterTool(o) => Respawn(s.running, o, override)
        case BootstrapTools(offers) => RespawnAll(s.running, offers, override)
        case RemoveTool(id) => if h.result.Ok? then s.running - {id} else s.running
        case _ => Notify(s.running, h.notified);
      Sys(h.after, running)
    case Send(id, msg) =>
      s.(running := s.running[id := s.running[id].(mailbox := s.running[id].mailbox + [Work(msg)])])
    case Deliver(id, started) =>
      var live := s.running[id];
      s.(running := s.running[id := Live(HandleMail(s, id, live.sup, live.mailbox[0], started), live.mailbox[1..])])
    case Crash(id) => s.(running := s.running - {id})
  }

  predicate Run(s: Sys, es: seq<Event>)
    decreases |es|
  {
    es == [] || (CanTake(s, es[0]) && Run(Step(s, es[0]), es[1..]))
  }

  function After(s: Sys, es: seq<Event>): Sys
    requires Run(s, es)
    decreases |es|
  {
    if es == [] then s else After(Step(s, es[0]), es[1..])
  }

  // ---- What keeps a disabled tool off -----------------------------------------

  /** The copy that supervisors read says Disabled. */
  predicate Off(r: R.Reg, id: string) {
    id in r.extension && r.extension[id].state == Disabled
  }

  /** The registrar's own copy says otherwise, as it may after a health update. */
  predicate CatalogOn(r: R.Reg, id: string) {
    id in r.catalog && r.catalog[id].tool.state != Disabled
  }

  /** The commands that bring a disabled tool back. Updates and registrations do so only
      while the catalog does not say Disabled; health updates never do by themselves. */
  predicate Revives(r: R.Reg, c: R.Cmd, id: string) {
    match c
    case EnableTool(i) => i == id
    case RemoveTool(i) => i == id
    case UpdateTool(tool) => tool.id == id && R.Update(r, tool).result.Ok? && CatalogOn(r, id)
    case RegisterTool(o) =>
      o.tool.id == id && Validate(o.tool).None? && CatalogOn(r, id) && o.tool.state != Disabled
    case BootstrapTools(offers) => R.LastOffer(offers, id).Some? && R.LastOffer(offers, id).value.tool.state != Disabled
    case _ => false
  }

  /** The supervisor refuses work for the tool as it stands. */
  predicate Refusing(sup: S.Sup, id: string) {
    sup.tool.state == Disabled || sup.tool.id != id
  }

  predicate RefreshWithin(mailbox: seq<Mail>, n: nat) {
    exists p :: 0 <= p < n && p < |mailbox| && mailbox[p].Refresh?
  }

  /** The supervisor refuses now, or will have read the extension again after n more messages. */
  predicate RefusesAfter(live: Live, id: string, n: nat) {
    Refusing(live.sup, id) || RefreshWithin(live.mailbox, n)
  }

  predicate Silent(s: Sys, id: string, n: nat) {
    id != "" && R.Aligned(s.reg) && Off(s.reg, id) && (id in s.running ==> RefusesAfter(s.running[id], id, n))
  }

  lemma UpdateStaysOff(r: R.Reg, tool: Tool, id: string)
    requires R.Aligned(r) && Off(r, id)
    ensures Off(R.Update(r, tool).after, id) <==> !Revives(r, R.UpdateTool(tool), id)
  {
    assert R.TwinsAt(r, id);
    if tool.id != id || !R.Update(r, tool).result.Ok? {
      R.UpdateElsewhere(r, tool, id);
    }
  }

  lemma RegisterStaysOff(r: R.Reg, o: R.Offer, id: string)
    requires R.Aligned(r) && Off(r, id)
    ensures Off(R.Register(r, o).after, id) <==> !Revives(r, R.RegisterTool(o), id)
  {
  }

  lemma SetStateStaysOff(r: R.Reg, i: string, state: ToolState, publish: bool, id: string)
    requires R.Aligned(r) && Off(r, id)
    ensures Off(R.SetState(r, i, state, publish).after, id) <==> i != id || !publish || state == Disabled
  {
    assert R.TwinsAt(r, id);
    if i != id {
      R.SetStateElsewhere(r, i, state, publish, id);
    }
  }

  /** A command leaves a disabled tool disabled for its supervisors if and only if it is not
      one of those. */
  lemma StaysOffExactly(r: R.Reg, c: R.Cmd, id: string)
    requires R.Aligned(r) && Off(r, id)
    ensures Off(R.Handle(r, c).after, id) <==> !Revives(r, c, id)
  {
    match c {
      case BootstrapTools(offers) => R.BootstrapPublishesLast(r, offers, id);
      case UpdateTool(tool) => UpdateStaysOff(r, tool, id);
      case RegisterTool(o) => RegisterStaysOff(r, o, id);
      case DisableTool(i) => SetStateStaysOff(r, i, Disabled, true, id);
      case EnableTool(i) => SetStateStaysOff(r, i, Enabled, true, id);
      case UpdateToolHealth(i, state) => SetStateStaysOff(r, i, state, false, id);
      case RemoveTool(_) =>
    }
  }

  /** A supervisor that has read the extension tells the tool disabled if and only if the
      extension says so. */
  lemma RefreshTellsExactly(s: Sys, id: string, sup: S.Sup, at: int)
    requires R.Aligned(s.reg) && id in s.reg.extension
    ensures var refreshed := HandleMail(s, id, sup, Refresh, true);
      S.Handle(refreshed, S.CanAcceptWork(id, at)).reply == S.Refuse(S.ToolDisabled, |sup.sessions|) <==> Off(s.reg, id)
  {
    assert R.TwinsAt(s.reg, id);
  }

  /** A supervisor that starts has the extension's copy of its tool, a closed circuit with the
      override's thresholds, no sessions, and is not draining. */
  lemma StartReadsExactly(s: Sys, id: string, sup: S.Sup, override: Option<C.Config>)
    requires id in s.reg.extension
    ensures var t := HandleMail(s, id, sup, PostStart(override), true);
      && t.tool == s.reg.extension[id] && t.sessions == map[] && !t.draining
      && t.circuit.state == C.Closed && t.circuit.failureCount == 0
      && t.circuit.config == C.Sanitize(if override.Some? then override.value else C.Config(0, 0, 0))
  {
  }

  lemma {:induction false} RespawnRefuses(
    running: map<string, Live>, offers: seq<R.Offer>, override: Option<C.Config>, id: string)
    requires id != ""
    ensures var t := RespawnAll(running, offers, override);
      id in t ==> Refusing(t[id].sup, id) || (id in running && t[id] == running[id])
  {
    if offers != [] {
      RespawnRefuses(running, Front(offers), override, id);
    }
  }

  lemma RefreshAppended(mailbox: seq<Mail>, m: Mail, n: nat)
    requires RefreshWithin(mailbox, n)
    ensures RefreshWithin(mailbox + [m], n)
  {
    var p :| 0 <= p < n && p < |mailbox| && mailbox[p].Refresh?;
    assert (mailbox + [m])[p].Refresh?;
  }

  lemma CommandKeepsSilent(s: Sys, c: R.Cmd, override: Option<C.Config>, id: string, n: nat)
    requires Silent(s, id, n) && !Revives(s.reg, c, id)
    ensures Silent(Step(s, Command(c, override)), id, n)
  {
    StaysOffExactly(s.reg, c, id);
    R.HandleKeepsAligned(s.reg, c);
    SupervisorsKeepRefusing(s, c, override, id, n);
  }

  lemma SupervisorsKeepRefusing(s: Sys, c: R.Cmd, override: Option<C.Config>, id: string, n: nat)
    requires id != "" && (id in s.running ==> RefusesAfter(s.running[id], id, n))
    ensures var t := Step(s, Command(c, override)).running; id in t ==> RefusesAfter(t[id], id, n)
  {
    if c.BootstrapTools? {
      RespawnRefuses(s.running, c.offers, override, id);
    } else if !c.RegisterTool? && id in s.running && RefreshWithin(s.running[id].mailbox, n) {
      RefreshAppended(s.running[id].mailbox, Refresh, n);
    }
  }

  /** Handling any message leaves a refusing supervisor refusing, and a refresh or a start
      makes one. */
  lemma MailKeepsRefusing(s: Sys, id: string, sup: S.Sup, m: Mail, started: bool)
    requires Off(s.reg, id) && (m.Work? ==> !m.msg.RefreshToolConfig?)
    requires Refusing(sup, id) || m.Refresh?
    ensures Refusing(HandleMail(s, id, sup, m, started), id)
  {
  }

  predicate NoForgedRefresh(s: Sys) {
    forall id :: id in s.running ==> Unforged(s.running[id].mailbox)
  }

  predicate Unforged(mailbox: seq<Mail>) {
    forall i :: 0 <= i < |mailbox| && mailbox[i].Work? ==> !mailbox[i].msg.RefreshToolConfig?
  }

  lemma DeliverKeepsSilent(s: Sys, i: string, started: bool, id: string, n: nat)
    requires Silent(s, id, n) && CanTake(s, Deliver(i, started)) && NoForgedRefresh(s)
    ensures Silent(Step(s, Deliver(i, started)), id, if i == id && n > 0 then n - 1 else n)
  {
    if i == id {
      var live := s.running[id];
      assert Unforged(live.mailbox);
      if Refusing(live.sup, id) || live.mailbox[0].Refresh? {
        MailKeepsRefusing(s, id, live.sup, live.mailbox[0], started);
      } else {
        var p :| 0 <= p < n && p < |live.mailbox| && live.mailbox[p].Refresh?;
        assert live.mailbox[1..][p - 1].Refresh?;
      }
    }
  }

  /** How many of the events are deliveries to the tool's supervisor. */
  function Deliveries(es: seq<Event>, id: string): nat {
    if es == [] then 0 else (if es[0].Deliver? && es[0].id == id then 1 else 0) + Deliveries(es[1..], id)
  }

  lemma {:induction false} RespawnUnforged(running: map<string, Live>, offers: seq<R.Offer>, override: Option<C.Config>)
    requires forall id :: id in running ==> Unforged(running[id].mailbox)
    ensures forall id :: id in RespawnAll(running, offers, override) ==>
      Unforged(RespawnAll(running, offers, override)[id].mailbox)
  {
    if offers != [] {
      RespawnUnforged(running, Front(offers), override);
    }
  }

  lemma StepUnforged(s: Sys, e: Event)
    requires NoForgedRefresh(s) && CanTake(s, e)
    ensures NoForgedRefresh(Step(s, e))
  {
    if e.Command? && e.cmd.BootstrapTools? {
      RespawnUnforged(s.running, e.cmd.offers, e.override);
    }
  }

  predicate RevivedBy(s: Sys, e: Event, id: string) {
    e.Command? && Revives(s.reg, e.cmd, id)
  }

  /** No command of the run revives the tool in the state it finds. */
  predicate NeverRevived(s: Sys, es: seq<Event>, id: string)
    requires Run(s, es)
    decreases |es|
  {
    es == [] || (!RevivedBy(s, es[0], id) && NeverRevived(Step(s, es[0]), es[1..], id))
  }

  lemma StepKeepsSilent(s: Sys, e: Event, id: string, n: nat)
    requires Silent(s, id, n) && NoForgedRefresh(s) && CanTake(s, e) && !RevivedBy(s, e, id)
    ensures Silent(Step(s, e), id, if e.Deliver? && e.id == id && n > 0 then n - 1 else n)
  {
    match e {
      case Command(c, override) => CommandKeepsSilent(s, c, override, id, n);
      case Deliver(i, started) => DeliverKeepsSilent(s, i, started, id, n);
      case Send(i, msg) =>
        if i == id && RefreshWithin(s.running[id].mailbox, n) {
          RefreshAppended(s.running[id].mailbox, Work(msg), n);
        }
      case Crash(_) =>
    }
  }

  lemma {:induction false} RunKeepsSilent(s: Sys, es: seq<Event>, id: string, n: nat)
    requires Silent(s, id, n) && NoForgedRefresh(s) && Run(s, es) && NeverRevived(s, es, id)
    ensures Silent(After(s, es), id, if Deliveries(es, id) < n then n - Deliveries(es, id) else 0)
    ensures NoForgedRefresh(After(s, es))
    decreases |es|
  {
    if es != [] {
      StepUnforged(s, es[0]);
      StepKeepsSilent(s, es[0], id, n);
      RunKeepsSilent(Step(s, es[0]), es[1..], id, if es[0].Deliver? && es[0].id == id && n > 0 then n - 1 else n);
    }
  }

  lemma DisableMakesSilent(s: Sys, override: Option<C.Config>, id: string)
    requires R.Aligned(s.reg) && id in s.reg.catalog
    ensures var n := if id in s.running then |s.running[id].mailbox| + 1 else 0;
      Silent(Step(s, Command(R.DisableTool(id), override)), id, n)
  {
    assert R.TwinsAt(s.reg, id);
    R.SetStateKeepsAligned(s.reg, id, Disabled, true);
    var t := Step(s, Command(R.DisableTool(id), override));
    assert t.running == Notify(s.running, Some(id));
    if id in s.running {
      var mailbox := s.running[id].mailbox;
      assert t.running[id].mailbox == mailbox + [Refresh];
      assert (mailbox + [Refresh])[|mailbox|].Refresh?;
    }
  }

  /** Once DisableTool has been handled and the supervisor has worked off what was in its
      mailbox by then, every CanAcceptWork for the tool is refused, through updates, health
      updates, registrations and the supervisors they respawn, crashes and all other
      traffic, as long as no command revives the tool. */
  lemma DisabledToolRefuses(s: Sys, override: Option<C.Config>, es: seq<Event>, id: string, at: int)
    requires R.Aligned(s.reg) && id in s.reg.catalog && NoForgedRefresh(s)
    requires var off := Step(s, Command(R.DisableTool(id), override)); Run(off, es) && NeverRevived(off, es, id)
    requires id in s.running ==> Deliveries(es, id) > |s.running[id].mailbox|
    ensures var t := After(Step(s, Command(R.DisableTool(id), override)), es);
      id in t.running ==> S.Handle(t.running[id].sup, S.CanAcceptWork(id, at)).reply.Refuse?
  {
    DisableMakesSilent(s, override, id);
    StepUnforged(s, Command(R.DisableTool(id), override));
    var n := if id in s.running then |s.running[id].mailbox| + 1 else 0;
    RunKeepsSilent(Step(s, Command(R.DisableTool(id), override)), es, id, n);
  }

  /** A system with nothing registered and nothing running. */
  const START := Sys(R.EMPTY, map[])

  lemma {:induction false} RunKeepsReady(s: Sys, es: seq<Event>)
    requires R.Aligned(s.reg) && NoForgedRefresh(s) && Run(s, es)
    ensures R.Aligned(After(s, es).reg) && NoForgedRefresh(After(s, es))
    decreases |es|
  {
    if es != [] {
      StepUnforged(s, es[0]);
      if es[0].Command? {
        R.HandleKeepsAligned(s.reg, es[0].cmd);
      }
      RunKeepsReady(Step(s, es[0]), es[1..]);
    }
  }

  /** The same for every system that came about from nothing: any history, then the
      DisableTool of a catalogued tool, then any continuation that does not revive it. */
  lemma DisabledToolRefusesInEveryRun(
    history: seq<Event>, override: Option<C.Config>, es: seq<Event>, id: string, at: int)
    requires Run(START, history) && id in After(START, history).reg.catalog
    requires var off := Step(After(START, history), Command(R.DisableTool(id), override));
      Run(off, es) && NeverRevived(off, es, id)
    requires var running := After(START, history).running;
      id in running ==> Deliveries(es, id) > |running[id].mailbox|
    ensures var t := After(Step(After(START, history), Command(R.DisableTool(id), override)), es);
      id in t.running ==> S.Handle(t.running[id].sup, S.CanAcceptWork(id, at)).reply.Refuse?
  {
    RunKeepsReady(START, history);
    DisabledToolRefuses(After(START, history), override, es, id, at);
  }

  // ---- An enabled tool serves -------------------------------------------------

  /** Commands that publish the tool in another state, respawn its supervisor or remove it. */
  predicate Disturbs(r: R.Reg, c: R.Cmd, id: string) {
    (R.Publishes(r, c, id) && !c.EnableTool?) || (c.RemoveTool? && c.id == id)
  }

  /** Events that leave the tool and its supervisor's drain flag alone. */
  predicate Calm(s: Sys, e: Event, id: string) {
    match e
    case Command(c, _) => !Disturbs(s.reg, c, id)
    case Send(i, msg) => !(i == id && msg.DrainTool?)
    case _ => true
  }

  predicate AlwaysCalm(s: Sys, es: seq<Event>, id: string)
    requires Run(s, es)
    decreases |es|
  {
    es == [] || (Calm(s, es[0], id) && AlwaysCalm(Step(s, es[0]), es[1..], id))
  }

  predicate Undrained(mailbox: seq<Mail>) {
    forall i :: 0 <= i < |mailbox| && mailbox[i].Work? ==> !mailbox[i].msg.DrainTool?
  }

  /** The supervisor's copy says Enabled and it is not draining. */
  predicate Willing(sup: S.Sup, id: string) {
    sup.tool.id == id && sup.tool.state == Enabled && !sup.draining
  }

  predicate RefreshLast(mailbox: seq<Mail>, p: int)
    requires 0 <= p < |mailbox|
  {
    mailbox[p].Refresh? && Undrained(mailbox[p + 1..])
  }

  /** The supervisor is willing and nothing in its mailbox will drain it, or it will be after
      a refresh among its next n messages. */
  predicate WillingAfter(live: Live, id: string, n: nat) {
    || (Willing(live.sup, id) && Undrained(live.mailbox))
    || exists p :: 0 <= p < n && p < |live.mailbox| && RefreshLast(live.mailbox, p)
  }

  predicate Serving(s: Sys, id: string, n: nat) {
    && R.Aligned(s.reg)
    && id in s.reg.extension && s.reg.extension[id].state == Enabled
    && (id in s.running ==> WillingAfter(s.running[id], id, n))
  }

  lemma WillingAppended(live: Live, m: Mail, id: string, n: nat)
    requires WillingAfter(live, id, n) && (m.Work? ==> !m.msg.DrainTool?)
    ensures WillingAfter(live.(mailbox := live.mailbox + [m]), id, n)
  {
    var mails := live.mailbox + [m];
    if !(Willing(live.sup, id) && Undrained(live.mailbox)) {
      var p :| 0 <= p < n && p < |live.mailbox| && RefreshLast(live.mailbox, p);
      assert mails[p + 1..] == live.mailbox[p + 1..] + [m];
      assert RefreshLast(mails, p);
    }
  }

  lemma {:induction false} RespawnElsewhere(
    running: map<string, Live>, offers: seq<R.Offer>, override: Option<C.Config>, id: string)
    requires R.LastOffer(offers, id).None?
    ensures id in RespawnAll(running, offers, override) <==> id in running
    ensures id in running ==> RespawnAll(running, offers, override)[id] == running[id]
  {
    if offers != [] {
      RespawnElsewhere(running, Front(offers), override, id);
    }
  }

  /** An undisturbing command leaves the extension copy Enabled. */
  lemma CommandKeepsEnabled(r: R.Reg, c: R.Cmd, id: string)
    requires R.Aligned(r) && !Disturbs(r, c, id)
    requires id in r.extension && r.extension[id].state == Enabled
    ensures var t := R.Handle(r, c).after; id in t.extension && t.extension[id].state == Enabled
  {
    assert R.TwinsAt(r, id);
    match c {
      case BootstrapTools(offers) => R.BootstrapPublishesLast(r, offers, id);
      case UpdateTool(tool) => R.UpdateElsewhere(r, tool, id);
      case DisableTool(i) => R.SetStateElsewhere(r, i, Disabled, true, id);
      case EnableTool(i) =>
        if i != id {
          R.SetStateElsewhere(r, i, Enabled, true, id);
        }
      case _ =>
    }
  }

  lemma CommandKeepsWilling(s: Sys, c: R.Cmd, override: Option<C.Config>, id: string, n: nat)
    requires !Disturbs(s.reg, c, id) && (id in s.running ==> WillingAfter(s.running[id], id, n))
    ensures var t := Step(s, Command(c, override)).running; id in t ==> WillingAfter(t[id], id, n)
  {
    if c.BootstrapTools? {
      RespawnElsewhere(s.running, c.offers, override, id);
    } else if !c.RegisterTool? && id in s.running {
      WillingAppended(s.running[id], Refresh, id, n);
    }
  }

  /** Reading the extension makes a supervisor willing, and no calm message changes that. */
  lemma MailKeepsWilling(s: Sys, id: string, sup: S.Sup, m: Mail, started: bool)
    requires R.Aligned(s.reg) && id in s.reg.extension && s.reg.extension[id].state == Enabled
    requires m.Work? ==> !m.msg.RefreshToolConfig? && !m.msg.DrainTool?
    requires Willing(sup, id) || m.Refresh?
    ensures Willing(HandleMail(s, id, sup, m, started), id)
  {
    assert R.TwinsAt(s.reg, id);
  }

  lemma DeliverKeepsServing(s: Sys, i: string, started: bool, id: string, n: nat)
    requires Serving(s, id, n) && CanTake(s, Deliver(i, started)) && NoForgedRefresh(s)
    ensures Serving(Step(s, Deliver(i, started)), id, if i == id && n > 0 then n - 1 else n)
  {
    if i == id {
      var live := s.running[id];
      var rest := live.mailbox[1..];
      assert Unforged(live.mailbox);
      if Willing(live.sup, id) && Undrained(live.mailbox) {
        MailKeepsWilling(s, id, live.sup, live.mailbox[0], started);
      } else {
        var p :| 0 <= p < n && p < |live.mailbox| && RefreshLast(live.mailbox, p);
        if p == 0 {
          MailKeepsWilling(s, id, live.sup, live.mailbox[0], started);
        } else {
          assert rest[p..] == live.mailbox[p + 1..];
          assert RefreshLast(rest, p - 1);
        }
      }
    }
  }

  lemma StepKeepsServing(s: Sys, e: Event, id: string, n: nat)
    requires Serving(s, id, n) && NoForgedRefresh(s) && CanTake(s, e) && Calm(s, e, id)
    ensures Serving(Step(s, e), id, if e.Deliver? && e.id == id && n > 0 then n - 1 else n)
  {
    match e {
      case Command(c, override) =>
        CommandKeepsEnabled(s.reg, c, id);
        R.HandleKeepsAligned(s.reg, c);
        CommandKeepsWilling(s, c, override, id, n);
      case Deliver(i, started) => DeliverKeepsServing(s, i, started, id, n);
      case Send(i, msg) =>
        if i == id {
          WillingAppended(s.running[id], Work(msg), id, n);
        }
      case Crash(_) =>
    }
  }

  lemma {:induction false} RunKeepsServing(s: Sys, es: seq<Event>, id: string, n: nat)
    requires Serving(s, id, n) && NoForgedRefresh(s) && Run(s, es) && AlwaysCalm(s, es, id)
    ensures Serving(After(s, es), id, if Deliveries(es, id) < n then n - Deliveries(es, id) else 0)
    decreases |es|
  {
    if es != [] {
      StepUnforged(s, es[0]);
      StepKeepsServing(s, es[0], id, n);
      RunKeepsServing(Step(s, es[0]), es[1..], id, if es[0].Deliver? && es[0].id == id && n > 0 then n - 1 else n);
    }
  }

  lemma EnableMakesServing(s: Sys, override: Option<C.Config>, id: string)
    requires R.Aligned(s.reg) && id in s.reg.catalog
    ensures var n := if id in s.running then |s.running[id].mailbox| + 1 else 0;
      Serving(Step(s, Command(R.EnableTool(id), override)), id, n)
  {
    assert R.TwinsAt(s.reg, id);
    R.SetStateKeepsAligned(s.reg, id, Enabled, true);
    var t := Step(s, Command(R.EnableTool(id), override));
    assert t.running == Notify(s.running, Some(id));
    if id in s.running {
      var mailbox := s.running[id].mailbox;
      assert t.running[id].mailbox == mailbox + [Refresh];
      assert RefreshLast(t.running[id].mailbox, |mailbox|);
    }
  }

  /** What a willing supervisor still refuses for. */
  lemma WillingRefusesFor(sup: S.Sup, id: string, at: int)
    requires Willing(sup, id)
    ensures var reply := S.Handle(sup, S.CanAcceptWork(id, at)).reply;
      reply.Accept? || (reply.Refuse? && reply.reason in {S.CircuitOpen, S.HalfOpenLimit, S.BackpressureCap})
  {
  }

  /** After any history from an empty system, the EnableTool of a catalogued tool, and any
      continuation that neither disturbs nor drains it: once the supervisor has worked off
      what was in its mailbox by then, its copy says Enabled, it is not draining, and a check
      is refused by the circuit or the cap alone. */
  lemma EnabledToolServesInEveryRun(
    history: seq<Event>, override: Option<C.Config>, es: seq<Event>, id: string, at: int)
    requires Run(START, history) && id in After(START, history).reg.catalog
    requires var on := Step(After(START, history), Command(R.EnableTool(id), override));
      Run(on, es) && AlwaysCalm(on, es, id)
    requires var running := After(START, history).running;
      id in running ==> Deliveries(es, id) > |running[id].mailbox|
    ensures var t := After(Step(After(START, history), Command(R.EnableTool(id), override)), es);
      id in t.running ==>
        && Willing(t.running[id].sup, id)
        && var reply := S.Handle(t.running[id].sup, S.CanAcceptWork(id, at)).reply;
           reply.Accept? || (reply.Refuse? && reply.reason in {S.CircuitOpen, S.HalfOpenLimit, S.BackpressureCap})
  {
    var s := After(START, history);
    RunKeepsReady(START, history);
    EnableMakesServing(s, override, id);
    var on := Step(s, Command(R.EnableTool(id), override));
    StepUnforged(s, Command(R.EnableTool(id), override));
    RunKeepsServing(on, es, id, if id in s.running then |s.running[id].mailbox| + 1 else 0);
    var t := After(on, es);
    if id in t.running {
      WillingRefusesFor(t.running[id].sup, id, at);
    }
  }

  // ---- A disabled tool that comes back ----------------------------------------

  /** The whole system when it holds one tool without metadata and its supervisor: the state
      in the catalog, in the extension and in the supervisor's copy, and the mailbox. */
  function Snapshot(tool: Tool, catalog: ToolState, extension: ToolState, seen: ToolState, mailbox: seq<Mail>): Sys {
    Sys(
      R.Reg(
        map[tool.id := R.Entry(tool.(state := catalog), [], [], [])],
        map[tool.id := 1],
        map[tool.id := tool.(state := extension)]),
      map[tool.id := Live(S.Started(tool.(state := seen), None), mailbox)])
  }

  function RegisterEvent(tool: Tool): Event {
    Command(R.RegisterTool(R.Offer(tool, R.Outcome(None, None, Some(1)))), None)
  }

  /** A tool is registered and disabled, and its supervisor has heard of it. */
  function Disabling(tool: Tool): seq<Event> {
    [RegisterEvent(tool), Deliver(tool.id, true), Command(R.DisableTool(tool.id), None), Deliver(tool.id, true)]
  }

  /** A health update crosses the disable and an ordinary update follows. */
  function Reviving(tool: Tool): seq<Event> {
    [Command(R.UpdateToolHealth(tool.id, Enabled), None), Command(R.UpdateTool(tool), None), Deliver(tool.id, true)]
  }

  lemma Cons(s: Sys, e: Event, es: seq<Event>)
    requires CanTake(s, e) && Run(Step(s, e), es)
    ensures Run(s, [e] + es) && After(s, [e] + es) == After(Step(s, e), es)
  {
    assert ([e] + es)[1..] == es;
  }

  /** Handling a refresh or a start makes the supervisor's copy that of the extension. */
  lemma Reads(tool: Tool, catalog: ToolState, extension: ToolState, seen: ToolState)
    ensures Step(Snapshot(tool, catalog, extension, seen, [Refresh]), Deliver(tool.id, true))
         == Snapshot(tool, catalog, extension, extension, [])
  {
    var s := Snapshot(tool, catalog, extension, seen, [Refresh]);
    var t := Step(s, Deliver(tool.id, true));
    assert t.running[tool.id] == Live(S.Started(tool.(state := extension), None), []);
    assert t.running == Snapshot(tool, catalog, extension, extension, []).running;
  }

  lemma Registers(tool: Tool)
    requires WellDefined(tool)
    ensures var t := Step(START, RegisterEvent(tool));
      CanTake(t, Deliver(tool.id, true)) &&
      Step(t, Deliver(tool.id, true)) == Snapshot(tool, tool.state, tool.state, tool.state, [])
  {
    var t := Step(START, RegisterEvent(tool));
    assert t.reg == Snapshot(tool, tool.state, tool.state, tool.state, []).reg;
    assert t.running == map[tool.id := Newborn(None)];
    var u := Step(t, Deliver(tool.id, true));
    assert u.running[tool.id] == Live(S.Started(tool, None), []);
    assert u.running == Snapshot(tool, tool.state, tool.state, tool.state, []).running;
  }

  /** A command that publishes state `now` while the catalog says `was`. */
  lemma Publishes(tool: Tool, was: ToolState, extension: ToolState, seen: ToolState, now: ToolState, c: R.Cmd)
    requires R.Handle(Snapshot(tool, was, extension, seen, []).reg, c)
          == R.Step(R.Publish(Snapshot(tool, was, extension, seen, []).reg, tool.(state := now)), R.Ok, Some(tool.id))
    requires c.DisableTool? || c.UpdateTool?
    ensures Step(Snapshot(tool, was, extension, seen, []), Command(c, None))
         == Snapshot(tool, now, now, seen, [Refresh])
  {
    var t := Step(Snapshot(tool, was, extension, seen, []), Command(c, None));
    var u := Snapshot(tool, now, now, seen, [Refresh]);
    assert t.reg.catalog == u.reg.catalog && t.reg.extension == u.reg.extension;
    assert t.running[tool.id].mailbox == [Refresh];
    assert t.running == u.running;
  }

  lemma DisablingRun(tool: Tool)
    requires WellDefined(tool)
    ensures Run(START, Disabling(tool))
    ensures After(START, Disabling(tool)) == Snapshot(tool, Disabled, Disabled, Disabled, [])
  {
    Registers(tool);
    var a := Step(START, RegisterEvent(tool));
    var b := Snapshot(tool, tool.state, tool.state, tool.state, []);
    var c := Snapshot(tool, Disabled, Disabled, tool.state, [Refresh]);
    Publishes(tool, tool.state, tool.state, tool.state, Disabled, R.DisableTool(tool.id));
    Reads(tool, Disabled, Disabled, tool.state);
    Cons(c, Deliver(tool.id, true), []);
    Cons(b, Command(R.DisableTool(tool.id), None), [Deliver(tool.id, true)]);
    Cons(a, Deliver(tool.id, true), [Command(R.DisableTool(tool.id), None), Deliver(tool.id, true)]);
    Cons(START, RegisterEvent(tool), Disabling(tool)[1..]);
  }

  lemma RevivingRun(tool: Tool)
    requires WellDefined(tool)
    ensures var s := Snapshot(tool, Disabled, Disabled, Disabled, []);
      Run(s, Reviving(tool)) && After(s, Reviving(tool)) == Snapshot(tool, Enabled, Enabled, Enabled, [])
  {
    var a := Snapshot(tool, Disabled, Disabled, Disabled, []);
    var b := Snapshot(tool, Enabled, Disabled, Disabled, []);
    assert Step(a, Command(R.UpdateToolHealth(tool.id, Enabled), None)) == b;
    var c := Snapshot(tool, Enabled, Enabled, Disabled, [Refresh]);
    Publishes(tool, Enabled, Disabled, Disabled, Enabled, R.UpdateTool(tool));
    Reads(tool, Enabled, Enabled, Disabled);
    Cons(c, Deliver(tool.id, true), []);
    Cons(b, Command(R.UpdateTool(tool), None), [Deliver(tool.id, true)]);
    Cons(a, Command(R.UpdateToolHealth(tool.id, Enabled), None), Reviving(tool)[1..]);
  }

  /** The exception is real: from an empty system every valid tool can be disabled, with its
      supervisor refusing, and accept work again after a health update and an update, with
      no EnableTool. */
  lemma HealthThenUpdateRevives(tool: Tool, at: int)
    requires WellDefined(tool)
    ensures Run(START, Disabling(tool)) && Run(After(START, Disabling(tool)), Reviving(tool))
    ensures var s := After(START, Disabling(tool));
      var t := After(s, Reviving(tool));
      && tool.id in s.running && tool.id in t.running
      && S.Handle(s.running[tool.id].sup, S.CanAcceptWork(tool.id, at)).reply.Refuse?
      && S.Handle(t.running[tool.id].sup, S.CanAcceptWork(tool.id, at)).reply.Accept?
  {
    DisablingRun(tool);
    RevivingRun(tool);
  }
}
