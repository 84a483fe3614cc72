/** The registrar actor of internal/runtime/actor/registrar.go with the catalog of
    registrar_catalog.go and the ToolConfigExtension of extension/extensions.go: three
    maps that follow the same tools. */
module Registrar {
  import opened Basics
  import opened Tools

  /** Catalog entry: the tool and the names of its fetched metadata. */
  datatype Entry = Entry(tool: Tool, schemas: seq<string>, resources: seq<string>, templates: seq<string>)

  datatype Reg = Reg(catalog: map<string, Entry>, supervisors: map<string, nat>, extension: map<string, Tool>)

  const EMPTY := Reg(map[], map[], map[])

  datatype Resources = Resources(resources: seq<string>, templates: seq<string>)

  /** What the backends and the actor system do while a tool is put in place: fetched
      metadata, if the fetch worked, and the PID of the spawned supervisor, if it did. */
  datatype Outcome = Outcome(schemas: Option<seq<string>>, resources: Option<Resources>, pid: Option<nat>)

  datatype Offer = Offer(tool: Tool, outcome: Outcome)

  datatype Cmd =
    | RegisterTool(offer: Offer)
    | UpdateTool(tool: Tool)
    | DisableTool(id: string)
    | EnableTool(id: string)
    | RemoveTool(id: string)
    | UpdateToolHealth(id: string, state: ToolState)
    | BootstrapTools(offers: seq<Offer>)

  datatype Result = Ok | Invalid(error: ToolError) | ToolNotFound

  /** `notified` is the tool whose supervisor, if any, is sent RefreshToolConfig. */
  datatype Step = Step(after: Reg, result: Result, notified: Option<string>)

  /** Stop the old supervisor, store the tool, fetch, publish, spawn. */
  function Install(r: Reg, tool: Tool, o: Outcome): Reg {
    var schemas := if o.schemas.Some? then o.schemas.value else [];
    var rs := if o.resources.Some? then o.resources.value else Resources([], []);
    Reg(
      r.catalog[tool.id := Entry(tool, schemas, rs.resources, rs.templates)],
      if o.pid.Some? then r.supervisors[tool.id := o.pid.value] else r.supervisors - {tool.id},
      r.extension[tool.id := tool])
  }

  function Register(r: Reg, o: Offer): Step {
    if Validate(o.tool).Some? then Step(r, Invalid(Validate(o.tool).value), None)
    else
      var keep := o.tool.id in r.catalog && r.catalog[o.tool.id].tool.state == Disabled;
      Step(Install(r, if keep then o.tool.(state := Disabled) else o.tool, o.outcome), Ok, None)
  }

  /** Replaces the tool of an existing entry and keeps its metadata. */
  function Store(r: Reg, tool: Tool): Reg {
    if tool.id in r.catalog then r.(catalog := r.catalog[tool.id := r.catalog[tool.id].(tool := tool)]) else r
  }

  function Publish(r: Reg, tool: Tool): Reg {
    Store(r, tool).(extension := r.extension[tool.id := tool])
  }

  function Update(r: Reg, tool: Tool): Step {
    if tool.id !in r.catalog then Step(r, ToolNotFound, None)
    else
      var was := r.catalog[tool.id].tool;
      var updated := tool.(id := was.id, transport := was.transport, stdio := was.stdio, http := was.http);
      if Validate(updated).Some? then Step(r, Invalid(Validate(updated).value), None)
      else Step(Publish(r, updated.(state := was.state)), Ok, Some(updated.id))
  }

  function SetState(r: Reg, id: string, state: ToolState, publish: bool): Step {
    if id !in r.catalog then Step(r, ToolNotFound, None)
    else
      var tool := r.catalog[id].tool.(state := state);
      if publish then Step(Publish(r, tool), Ok, Some(id)) else Step(Store(r, tool), Ok, None)
  }

  function Remove(r: Reg, id: string): Step {
    if id !in r.catalog then Step(r, ToolNotFound, None)
    else Step(Reg(r.catalog - {id}, r.supervisors - {id}, r.extension - {id}), Ok, None)
  }

  function Bootstrap(r: Reg, offers: seq<Offer>): Reg {
    if offers == [] then r
    else
      var before := Bootstrap(r, Front(offers));
      var o := Last(offers);
      if Validate(o.tool).Some? then before else Install(before, o.tool, o.outcome)
  }

  function Handle(r: Reg, c: Cmd): Step {
    match c
    case RegisterTool(offer) => Register(r, offer)
    case UpdateTool(tool) => Update(r, tool)
    case DisableTool(id) => SetState(r, id, Disabled, true)
    case EnableTool(id) => SetState(r, id, Enabled, true)
    case RemoveTool(id) => Remove(r, id)
    case UpdateToolHealth(id, state) => SetState(r, id, state, false)
    case BootstrapTools(offers) => Step(Bootstrap(r, offers), Ok, None)
  }

  function After(cmds: seq<Cmd>): Reg {
    if cmds == [] then EMPTY else Handle(After(Front(cmds)), Last(cmds)).after
  }

  // ---- The three maps stay aligned --------------------------------------------

  predicate TwinsAt(r: Reg, id: string) {
    && id in r.catalog && id in r.extension
    && r.catalog[id].tool.id == id
    && WellDefined(r.catalog[id].tool)
    && r.extension[id] == r.catalog[id].tool.(state := r.extension[id].state)
  }

  /** Catalog keys are tool IDs of valid tools, every supervisor belongs to a catalogued
      tool, the extension has the same tools, and the copies differ in State at most. */
  predicate Aligned(r: Reg) {
    && r.supervisors.Keys <= r.catalog.Keys
    && r.extension.Keys == r.catalog.Keys
    && forall id :: id in r.catalog ==> TwinsAt(r, id)
  }

  lemma InstallKeepsAligned(r: Reg, tool: Tool, o: Outcome)
    requires Aligned(r) && WellDefined(tool)
    ensures Aligned(Install(r, tool, o))
  {
    var t := Install(r, tool, o);
    forall id | id in t.catalog
      ensures TwinsAt(t, id)
    {
      assert id != tool.id ==> TwinsAt(r, id);
    }
  }

  lemma {:induction false} BootstrapKeepsAligned(r: Reg, offers: seq<Offer>)
    requires Aligned(r)
    ensures Aligned(Bootstrap(r, offers))
  {
    if offers != [] {
      BootstrapKeepsAligned(r, Front(offers));
      if Validate(Last(offers).tool).None? {
        InstallKeepsAligned(Bootstrap(r, Front(offers)), Last(offers).tool, Last(offers).outcome);
      }
    }
  }

  /** Replacing one tool by a valid one of the same ID, in both copies or up to State in
      the catalog only, keeps alignment. */
  lemma StoreKeepsAligned(r: Reg, tool: Tool, publish: bool)
    requires Aligned(r) && tool.id in r.catalog && WellDefined(tool)
    requires !publish ==> tool == r.catalog[tool.id].tool.(state := tool.state)
    ensures Aligned(if publish then Publish(r, tool) else Store(r, tool))
  {
    var t := if publish then Publish(r, tool) else Store(r, tool);
    forall id | id in t.catalog
      ensures TwinsAt(t, id)
    {
      assert TwinsAt(r, id);
    }
  }

  lemma RemoveKeepsAligned(r: Reg, id: string)
    requires Aligned(r)
    ensures Aligned(Remove(r, id).after)
  {
    var t := Remove(r, id).after;
    forall i | i in t.catalog
      ensures TwinsAt(t, i)
    {
      assert TwinsAt(r, i);
    }
  }

  lemma SetStateKeepsAligned(r: Reg, id: string, state: ToolState, publish: bool)
    requires Aligned(r)
    ensures Aligned(SetState(r, id, state, publish).after)
  {
    if id in r.catalog {
      assert TwinsAt(r, id);
      StoreKeepsAligned(r, r.catalog[id].tool.(state := state), publish);
    }
  }

  lemma UpdateKeepsAligned(r: Reg, tool: Tool)
    requires Aligned(r)
    ensures Aligned(Update(r, tool).after)
  {
    if tool.id in r.catalog {
      assert TwinsAt(r, tool.id);
      var was := r.catalog[tool.id].tool;
      var updated := tool.(id := was.id, transport := was.transport, stdio := was.stdio, http := was.http);
      if Validate(updated).None? {
        StoreKeepsAligned(r, updated.(state := was.state), true);
      }
    }
  }

  lemma HandleKeepsAligned(r: Reg, c: Cmd)
    requires Aligned(r)
    ensures Aligned(Handle(r, c).after)
  {
    match c {
      case RegisterTool(o) =>
        if Validate(o.tool).None? {
          InstallKeepsAligned(r, o.tool, o.outcome);
          InstallKeepsAligned(r, o.tool.(state := Disabled), o.outcome);
        }
      case BootstrapTools(offers) => BootstrapKeepsAligned(r, offers);
      case UpdateTool(tool) => UpdateKeepsAligned(r, tool);
      case RemoveTool(id) => RemoveKeepsAligned(r, id);
      case DisableTool(id) => SetStateKeepsAligned(r, id, Disabled, true);
      case EnableTool(id) => SetStateKeepsAligned(r, id, Enabled, true);
      case UpdateToolHealth(id, state) => SetStateKeepsAligned(r, id, state, false);
    }
  }

  /** After every sequence of commands the three maps are aligned. */
  lemma {:induction false} MapsStayAligned(cmds: seq<Cmd>)
    ensures Aligned(After(cmds))
  {
    if cmds != [] {
      MapsStayAligned(Front(cmds));
      HandleKeepsAligned(After(Front(cmds)), Last(cmds));
    }
  }

  /** The last valid offer for the tool. */
  function LastOffer(offers: seq<Offer>, id: string): Option<Offer> {
    if offers == [] then None
    else if Last(offers).tool.id == id && Validate(Last(offers).tool).None? then Some(Last(offers))
    else LastOffer(Front(offers), id)
  }

  /** The command succeeds in writing this tool's extension copy. */
  predicate Publishes(r: Reg, c: Cmd, id: string) {
    match c
    case RegisterTool(o) => o.tool.id == id && WellDefined(o.tool)
    case UpdateTool(tool) => tool.id == id && Handle(r, c).result.Ok?
    case DisableTool(i) => i == id
    case EnableTool(i) => i == id
    case BootstrapTools(offers) => LastOffer(offers, id).Some?
    case _ => false
  }

  /** The state written by the last health update of the tool, if one came since the last
      successful command that published the tool. */
  function HealthSince(cmds: seq<Cmd>, id: string): Option<ToolState> {
    if cmds == [] then None
    else
      var c := Last(cmds);
      if c.UpdateToolHealth? && c.id == id then Some(c.state)
      else if Publishes(After(Front(cmds)), c, id) then None
      else HealthSince(Front(cmds), id)
  }

  predicate Same(r: Reg, id: string) {
    id in r.catalog && id in r.extension && r.extension[id] == r.catalog[id].tool
  }

  /** Bootstrapping publishes the last valid offer for a tool in both copies, and leaves the
      copies of a tool without one alone. */
  lemma {:induction false} BootstrapPublishesLast(r: Reg, offers: seq<Offer>, id: string)
    ensures var o, t := LastOffer(offers, id), Bootstrap(r, offers);
      && (o.Some? ==> Same(t, id) && t.extension[id] == o.value.tool)
      && (o.None? ==> Untouched(r, t, id))
  {
    if offers != [] {
      BootstrapPublishesLast(r, Front(offers), id);
    }
  }

  /** The two copies of the tool, or their absence, are the same as before. */
  predicate Untouched(before: Reg, after: Reg, id: string) {
    && (id in after.catalog <==> id in before.catalog)
    && (id in after.extension <==> id in before.extension)
    && (id in before.catalog ==> after.catalog[id].tool == before.catalog[id].tool)
    && (id in before.extension ==> after.extension[id] == before.extension[id])
  }

  /** A command that publishes a tool leaves equal copies of it. */
  lemma PublishedAreSame(r: Reg, c: Cmd, id: string)
    requires Aligned(r) && id in Handle(r, c).after.catalog && Publishes(r, c, id)
    ensures Same(Handle(r, c).after, id)
  {
    match c {
      case RegisterTool(_) =>
      case BootstrapTools(offers) => BootstrapPublishesLast(r, offers, id);
      case UpdateTool(tool) => assert TwinsAt(r, tool.id);
      case DisableTool(i) => assert TwinsAt(r, i);
      case EnableTool(i) => assert TwinsAt(r, i);
    }
  }

  /** A command that neither publishes a tool nor reports its health nor removes it leaves
      its copies alone. */
  lemma OthersAreUntouched(r: Reg, c: Cmd, id: string)
    requires Aligned(r) && id in Handle(r, c).after.catalog && !Publishes(r, c, id)
    requires !(c.UpdateToolHealth? && c.id == id)
    ensures Untouched(r, Handle(r, c).after, id)
  {
    match c {
      case BootstrapTools(offers) => BootstrapPublishesLast(r, offers, id);
      case UpdateTool(tool) => UpdateElsewhere(r, tool, id);
      case DisableTool(i) => SetStateElsewhere(r, i, Disabled, true, id);
      case EnableTool(i) => SetStateElsewhere(r, i, Enabled, true, id);
      case UpdateToolHealth(i, state) => SetStateElsewhere(r, i, state, false, id);
      case _ =>
    }
  }

  lemma UpdateElsewhere(r: Reg, tool: Tool, id: string)
    requires Aligned(r) && (tool.id != id || !Update(r, tool).result.Ok?)
    ensures Untouched(r, Update(r, tool).after, id)
  {
    assert tool.id in r.catalog ==> TwinsAt(r, tool.id);
  }

  lemma SetStateElsewhere(r: Reg, i: string, state: ToolState, publish: bool, id: string)
    requires Aligned(r) && i != id
    ensures Untouched(r, SetState(r, i, state, publish).after, id)
  {
    assert i in r.catalog ==> TwinsAt(r, i);
  }

  /** The catalog's State is that of the last health update since the tool was last
      registered, bootstrapped, updated, enabled or disabled with success, and the published
      one if there was none. */
  lemma {:induction false} CatalogStateIsLastHealth(cmds: seq<Cmd>, id: string)
    requires id in After(cmds).catalog
    ensures id in After(cmds).extension
    ensures var h := HealthSince(cmds, id);
      After(cmds).catalog[id].tool.state == if h.Some? then h.value else After(cmds).extension[id].state
  {
    var before, c := After(Front(cmds)), Last(cmds);
    MapsStayAligned(cmds);
    MapsStayAligned(Front(cmds));
    if c.UpdateToolHealth? && c.id == id {
      assert id in before.catalog;
    } else if Publishes(before, c, id) {
      PublishedAreSame(before, c, id);
    } else {
      OthersAreUntouched(before, c, id);
      CatalogStateIsLastHealth(Front(cmds), id);
    }
  }

  /** So the copies agree, State included, if and only if no health update came since, or
      the last one wrote the published State. */
  lemma CopiesAgreeExactly(cmds: seq<Cmd>, id: string)
    requires id in After(cmds).catalog
    ensures id in After(cmds).extension
    ensures Same(After(cmds), id) <==>
      HealthSince(cmds, id).None? || HealthSince(cmds, id) == Some(After(cmds).extension[id].state)
  {
    CatalogStateIsLastHealth(cmds, id);
    MapsStayAligned(cmds);
    assert TwinsAt(After(cmds), id);
  }

  // ---- What each command answers, announces and puts in place -----------------

  /** The tool an update would store: identity and transport of the old one, the rest new. */
  function Merged(was: Tool, tool: Tool): Tool {
    Tool(was.id, was.transport, was.stdio, was.http, tool.grpc, tool.options, tool.state, tool.maxSessions)
  }

  /** A command fails exactly if its tool is invalid or, for all but registration and
      bootstrap, unknown; a failed command changes nothing. */
  lemma ResultExactly(r: Reg, c: Cmd)
    ensures var h := Handle(r, c);
      && (h.result.Invalid? <==>
            || (c.RegisterTool? && !WellDefined(c.offer.tool))
            || (c.UpdateTool? && c.tool.id in r.catalog && !WellDefined(Merged(r.catalog[c.tool.id].tool, c.tool))))
      && (h.result.ToolNotFound? <==>
            || (c.UpdateTool? && c.tool.id !in r.catalog)
            || ((c.DisableTool? || c.EnableTool? || c.RemoveTool? || c.UpdateToolHealth?) && c.id !in r.catalog))
      && (!h.result.Ok? ==> h.after == r && h.notified.None?)
  {
    if c.UpdateTool? && c.tool.id in r.catalog {
      var was := r.catalog[c.tool.id].tool;
      assert Merged(was, c.tool) ==
        c.tool.(id := was.id, transport := was.transport, stdio := was.stdio, http := was.http);
    }
  }

  /** A supervisor is sent a refresh exactly by a successful disable, enable or update of its
      tool. */
  lemma NotifiedExactly(r: Reg, c: Cmd, id: string)
    requires Aligned(r)
    ensures Handle(r, c).notified == Some(id) <==>
      && Handle(r, c).result.Ok?
      && ((c.DisableTool? && c.id == id) || (c.EnableTool? && c.id == id) || (c.UpdateTool? && c.tool.id == id))
  {
    if c.UpdateTool? && c.tool.id in r.catalog {
      assert TwinsAt(r, c.tool.id);
    }
  }

  /** Which tool each publishing command publishes: an enabled or disabled one keeps all but
      its State, a registered one is the offered one unless the old one was disabled, an
      updated one is merged and keeps its State. */
  lemma PublishesExactly(r: Reg, c: Cmd, id: string)
    requires Aligned(r) && Publishes(r, c, id) && Handle(r, c).result.Ok?
    ensures var t := Handle(r, c).after;
      && Same(t, id)
      && (c.DisableTool? ==> id in r.catalog && t.extension[id] == r.catalog[id].tool.(state := Disabled))
      && (c.EnableTool? ==> id in r.catalog && t.extension[id] == r.catalog[id].tool.(state := Enabled))
      && (c.UpdateTool? ==>
            && id in r.catalog
            && t.extension[id] == Merged(r.catalog[id].tool, c.tool).(state := r.catalog[id].tool.state))
      && (c.RegisterTool? ==>
            t.extension[id] == c.offer.tool.(state :=
              if id in r.catalog && r.catalog[id].tool.state == Disabled then Disabled else c.offer.tool.state))
      && (c.BootstrapTools? ==> LastOffer(c.offers, id).Some? && t.extension[id] == LastOffer(c.offers, id).value.tool)
  {
    match c {
      case BootstrapTools(offers) => BootstrapPublishesLast(r, offers, id);
      case UpdateTool(tool) => assert TwinsAt(r, id);
      case DisableTool(_) => assert TwinsAt(r, id);
      case EnableTool(_) => assert TwinsAt(r, id);
      case _ =>
    }
  }

  /** The valid offer that installed the tool, unless it was removed since. */
  function LastInstall(cmds: seq<Cmd>, id: string): Option<Offer> {
    if cmds == [] then None else NextInstall(LastInstall(Front(cmds), id), Last(cmds), id)
  }

  function NextInstall(before: Option<Offer>, c: Cmd, id: string): Option<Offer> {
    match c
    case RegisterTool(o) => if o.tool.id == id && WellDefined(o.tool) then Some(o) else before
    case BootstrapTools(offers) => if LastOffer(offers, id).Some? then LastOffer(offers, id) else before
    case RemoveTool(i) => if i == id then None else before
    case _ => before
  }

  /** What the installation found at the backend, and no leftovers of earlier ones, is in
      the catalog; and its supervisor, if it could be spawned, is the tool's. */
  predicate InPlace(r: Reg, id: string, install: Option<Offer>) {
    && (id in r.catalog <==> install.Some?)
    && (id in r.supervisors <==> install.Some? && install.value.outcome.pid.Some?)
    && (install.Some? ==>
          var e, o := r.catalog[id], install.value.outcome;
          && e.schemas == (if o.schemas.Some? then o.schemas.value else [])
          && e.resources == (if o.resources.Some? then o.resources.value.resources else [])
          && e.templates == (if o.resources.Some? then o.resources.value.templates else [])
          && (o.pid.Some? ==> r.supervisors[id] == o.pid.value))
  }

  lemma InstallPutsInPlace(r: Reg, tool: Tool, offer: Offer, id: string, install: Option<Offer>)
    requires InPlace(r, id, install)
    ensures InPlace(Install(r, tool, offer.outcome), id, if tool.id == id then Some(offer) else install)
  {
  }

  lemma {:induction false} BootstrapPutsInPlace(r: Reg, offers: seq<Offer>, id: string, install: Option<Offer>)
    requires InPlace(r, id, install)
    ensures InPlace(Bootstrap(r, offers), id, if LastOffer(offers, id).Some? then LastOffer(offers, id) else install)
  {
    if offers != [] {
      BootstrapPutsInPlace(r, Front(offers), id, install);
      var sofar := if LastOffer(Front(offers), id).Some? then LastOffer(Front(offers), id) else install;
      InstallPutsInPlace(Bootstrap(r, Front(offers)), Last(offers).tool, Last(offers), id, sofar);
    }
  }

  lemma StoreKeepsPlace(r: Reg, tool: Tool, publish: bool, id: string, install: Option<Offer>)
    requires InPlace(r, id, install) && tool.id in r.catalog
    ensures InPlace(if publish then Publish(r, tool) else Store(r, tool), id, install)
  {
  }

  /** A disable, enable, health update or update leaves everything else in place. */
  lemma ChangeKeepsPlace(r: Reg, c: Cmd, id: string, install: Option<Offer>)
    requires Aligned(r) && InPlace(r, id, install)
    requires c.UpdateTool? || c.DisableTool? || c.EnableTool? || c.UpdateToolHealth?
    ensures InPlace(Handle(r, c).after, id, install)
  {
    if Handle(r, c).result.Ok? {
      var i := if c.UpdateTool? then c.tool.id else c.id;
      assert TwinsAt(r, i);
      StoreKeepsPlace(r, Handle(r, c).after.catalog[i].tool, !c.UpdateToolHealth?, id, install);
    } else {
      ResultExactly(r, c);
    }
  }

  lemma RemoveTakesOut(r: Reg, i: string, id: string, install: Option<Offer>)
    requires InPlace(r, id, install)
    ensures InPlace(Remove(r, i).after, id, if i == id then None else install)
  {
  }

  lemma HandleKeepsPlace(r: Reg, c: Cmd, id: string, install: Option<Offer>)
    requires Aligned(r) && InPlace(r, id, install)
    ensures InPlace(Handle(r, c).after, id, NextInstall(install, c, id))
  {
    if c.RegisterTool? {
      InstallPutsInPlace(r, c.offer.tool, c.offer, id, install);
      InstallPutsInPlace(r, c.offer.tool.(state := Disabled), c.offer, id, install);
    } else if c.RemoveTool? {
      RemoveTakesOut(r, c.id, id, install);
    } else if c.BootstrapTools? {
      BootstrapPutsInPlace(r, c.offers, id, install);
    } else {
      ChangeKeepsPlace(r, c, id, install);
    }
  }

  /** Over any commands, a tool is in the catalog exactly if it was installed and not removed
      since; its metadata and its supervisor are those of that installation. */
  lemma {:induction false} InstalledIsHistory(cmds: seq<Cmd>, id: string)
    ensures InPlace(After(cmds), id, LastInstall(cmds, id))
  {
    if cmds != [] {
      InstalledIsHistory(Front(cmds), id);
      MapsStayAligned(Front(cmds));
      HandleKeepsPlace(After(Front(cmds)), Last(cmds), id, LastInstall(Front(cmds), id));
    }
  }

  /** An update keeps ID, transport, stdio and HTTP configuration, state and fetched
      metadata; the gRPC configuration and everything else comes from the message. */
  lemma UpdateKeepsIdentity(r: Reg, tool: Tool)
    requires Aligned(r) && Update(r, tool).result.Ok?
    ensures tool.id in r.catalog
    ensures var was, now := r.catalog[tool.id], Update(r, tool).after.catalog[tool.id];
      && now == was.(tool := now.tool)
      && now.tool == tool.(
           transport := was.tool.transport, stdio := was.tool.stdio, http := was.tool.http, state := was.tool.state)
  {
    assert TwinsAt(r, tool.id);
  }

  /** So the transport configuration survives an update, as documented, if and only if
      the message repeats the gRPC part. */
  lemma UpdateKeepsTransportIff(r: Reg, tool: Tool)
    requires Aligned(r) && Update(r, tool).result.Ok?
    ensures var was, now := r.catalog[tool.id].tool, Update(r, tool).after.catalog[tool.id].tool;
      (now.transport == was.transport && now.stdio == was.stdio && now.http == was.http && now.grpc == was.grpc)
        <==> tool.grpc == was.grpc
  {
    UpdateKeepsIdentity(r, tool);
  }

  /** It does not for any gRPC tool that is updated with another valid gRPC part. */
  lemma UpdateReplacesGRPC(r: Reg, was: Tool, grpc: GRPC)
    requires Aligned(r) && was.id in r.catalog && r.catalog[was.id].tool == was && was.transport == GRPCTransport
    requires WellDefined(was.(grpc := Some(grpc))) && was.grpc != Some(grpc)
    ensures var s := Update(r, was.(grpc := Some(grpc)));
      s.result.Ok? && s.after.catalog[was.id].tool.grpc == Some(grpc) != was.grpc
  {
    assert TwinsAt(r, was.id);
  }

  // ---- The objects themselves -------------------------------------------------

  class ToolCatalog {
    var entries: map<string, Entry>

    constructor ()
      ensures entries == map[]
    {
      entries := map[];
    }

    method Get(id: string) returns (tool: Option<Tool>)
      ensures tool == if id in entries then Some(entries[id].tool) else None
    {
      tool := if id in entries then Some(entries[id].tool) else None;
    }

    /** Clears metadata of an earlier registration. */
    method Put(tool: Tool)
      modifies this
      ensures entries == old(entries)[tool.id := Entry(tool, [], [], [])]
    {
      entries := entries[tool.id := Entry(tool, [], [], [])];
    }

    method UpdateTool(tool: Tool) returns (found: bool)
      modifies this
      ensures found == (tool.id in old(entries))
      ensures entries == if found then old(entries)[tool.id := old(entries)[tool.id].(tool := tool)] else old(entries)
    {
      found := tool.id in entries;
      if found {
        entries := entries[tool.id := entries[tool.id].(tool := tool)];
      }
    }

    method Remove(id: string) returns (found: bool)
      modifies this
      ensures found == (id in old(entries)) && entries == old(entries) - {id}
    {
      found := id in entries;
      entries := entries - {id};
    }

    method SetSchemas(id: string, schemas: seq<string>)
      modifies this
      ensures entries ==
        if id in old(entries) then old(entries)[id := old(entries)[id].(schemas := schemas)] else old(entries)
    {
      if id in entries {
        entries := entries[id := entries[id].(schemas := schemas)];
      }
    }

    method SetResources(id: string, rs: Resources)
      modifies this
      ensures entries ==
        if id in old(entries)
        then old(entries)[id := old(entries)[id].(resources := rs.resources, templates := rs.templates)]
        else old(entries)
    {
      if id in entries {
        entries := entries[id := entries[id].(resources := rs.resources, templates := rs.templates)];
      }
    }
  }

  class ToolConfigExtension {
    var tools: map<string, Tool>

    constructor ()
      ensures tools == map[]
    {
      tools := map[];
    }

    method Register(tool: Tool)
      modifies this
      ensures tools == old(tools)[tool.id := tool]
    {
      tools := tools[tool.id := tool];
    }

    method Remove(id: string)
      modifies this
      ensures tools == old(tools) - {id}
    {
      tools := tools - {id};
    }
  }

  class RegistrarActor {
    const catalog: ToolCatalog
    const extension: ToolConfigExtension
    var supervisors: map<string, nat>

    ghost function View(): Reg
      reads this, catalog, extension
    {
      Reg(catalog.entries, supervisors, extension.tools)
    }

    constructor (ext: ToolConfigExtension)
      ensures extension == ext && fresh(catalog)
      ensures View() == Reg(map[], map[], ext.tools)
    {
      catalog := new ToolCatalog();
      extension := ext;
      supervisors := map[];
    }

    /** Receive: dispatches one command. */
    method Receive(c: Cmd) returns (result: Result, notified: Option<string>)
      modifies this, catalog, extension
      ensures View() == Handle(old(View()), c).after
      ensures result == Handle(old(View()), c).result && notified == Handle(old(View()), c).notified
    {
      notified := None;
      match c {
        case RegisterTool(o) => result := HandleRegisterTool(o);
        case UpdateTool(tool) => result, notified := HandleUpdateTool(tool);
        case DisableTool(id) => result, notified := HandleSetState(id, Disabled, true);
        case EnableTool(id) => result, notified := HandleSetState(id, Enabled, true);
        case RemoveTool(id) => result := HandleRemoveTool(id);
        case UpdateToolHealth(id, state) => result, notified := HandleSetState(id, state, false);
        case BootstrapTools(offers) => result := HandleBootstrapTools(offers);
      }
    }

    method HandleRegisterTool(o: Offer) returns (result: Result)
      modifies this, catalog, extension
      ensures View() == Register(old(View()), o).after
      ensures result == Register(old(View()), o).result
    {
      var err := Validate(o.tool);
      if err.Some? {
        return Invalid(err.value);
      }
      var tool := o.tool;
      var existing := catalog.Get(tool.id);
      if existing.Some? && existing.value.state == Disabled {
        tool := tool.(state := Disabled);
      }
      InstallTool(tool, o.outcome);
      result := Ok;
    }

    method InstallTool(tool: Tool, o: Outcome)
      modifies this, catalog, extension
      ensures View() == Install(old(View()), tool, o)
    {
      ghost var before := View();
      StopSupervisorIfExists(tool.id);
      catalog.Put(tool);
      FetchMetadata(tool.id, o);
      assert catalog.entries == Install(before, tool, o).catalog;
      extension.Register(tool);
      assert extension.tools == Install(before, tool, o).extension;
      if o.pid.Some? {
        supervisors := supervisors[tool.id := o.pid.value];
      }
      assert supervisors == Install(before, tool, o).supervisors;
    }

    /** Stale metadata is cleared first, so a failed fetch leaves none. */
    method FetchMetadata(id: string, o: Outcome)
      requires id in catalog.entries
      modifies catalog
      ensures catalog.entries == old(catalog.entries)[id := Entry(
        old(catalog.entries)[id].tool,
        if o.schemas.Some? then o.schemas.value else [],
        if o.resources.Some? then o.resources.value.resources else [],
        if o.resources.Some? then o.resources.value.templates else [])]
    {
      catalog.SetSchemas(id, []);
      if o.schemas.Some? {
        catalog.SetSchemas(id, o.schemas.value);
      }
      catalog.SetResources(id, Resources([], []));
      if o.resources.Some? {
        catalog.SetResources(id, o.resources.value);
      }
    }

    method StopSupervisorIfExists(id: string)
      modifies this, extension
      ensures View() == old(View()).(supervisors := old(supervisors) - {id}, extension := old(extension.tools) - {id})
    {
      if id in supervisors {
        supervisors := supervisors - {id};
      }
      extension.Remove(id);
    }

    method HandleUpdateTool(tool: Tool) returns (result: Result, notified: Option<string>)
      modifies catalog, extension
      ensures View() == Update(old(View()), tool).after
      ensures result == Update(old(View()), tool).result && notified == Update(old(View()), tool).notified
    {
      var existing := catalog.Get(tool.id);
      if existing.None? {
        return ToolNotFound, None;
      }
      var was := existing.value;
      var updated := tool.(id := was.id, transport := was.transport, stdio := was.stdio, http := was.http);
      var err := Validate(updated);
      if err.Some? {
        return Invalid(err.value), None;
      }
      updated := updated.(state := was.state);
      var _ := catalog.UpdateTool(updated);
      extension.Register(updated);
      return Ok, Some(updated.id);
    }

    /** The bodies of disable, enable and health updates; the last writes the catalog only. */
    method HandleSetState(id: string, state: ToolState, publish: bool)
      returns (result: Result, notified: Option<string>)
      modifies catalog, extension
      ensures View() == SetState(old(View()), id, state, publish).after
      ensures result == SetState(old(View()), id, state, publish).result
      ensures notified == SetState(old(View()), id, state, publish).notified
    {
      var existing := catalog.Get(id);
      if existing.None? {
        return ToolNotFound, None;
      }
      var tool := existing.value.(state := state);
      var _ := catalog.UpdateTool(tool);
      if publish {
        extension.Register(tool);
      }
      return Ok, if publish then Some(id) else None;
    }

    method HandleRemoveTool(id: string) returns (result: Result)
      modifies this, catalog, extension
      ensures View() == Remove(old(View()), id).after
      ensures result == Remove(old(View()), id).result
    {
      var existing := catalog.Get(id);
      if existing.None? {
        return ToolNotFound;
      }
      StopSupervisorIfExists(id);
      var _ := catalog.Remove(id);
      supervisors := supervisors - {id};
      result := Ok;
    }

    method HandleBootstrapTools(offers: seq<Offer>) returns (result: Result)
      modifies this, catalog, extension
      ensures View() == Bootstrap(old(View()), offers)
      ensures result == Ok
    {
      var i := 0;
      while i < |offers|
        invariant 0 <= i <= |offers|
        invariant View() == Bootstrap(old(View()), offers[..i])
      {
        assert Front(offers[..i + 1]) == offers[..i];
        if Validate(offers[i].tool).None? {
          InstallTool(offers[i].tool, offers[i].outcome);
        }
        i := i + 1;
      }
      assert offers[..i] == offers;
      result := Ok;
    }
  }
}
