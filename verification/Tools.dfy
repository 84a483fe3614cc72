/** Tool definitions (mcp/tool.go) and their validation (mcp/tool_validation.go). */
module Tools {
  import opened Basics

  /** The state is a Go string, so values other than the four named ones occur,
      among them the empty string of an unset field. */
  datatype ToolState = Enabled | Disabled | Degraded | Unavailable | OtherState(text: string)

  datatype Transport = StdioTransport | HTTPTransport | GRPCTransport | OtherTransport(text: string)

  datatype Stdio = Stdio(command: string, args: seq<string>)

  datatype HTTP = HTTP(url: string)

  datatype GRPC = GRPC(target: string, service: string, rpc: string, descriptorSet: string, reflection: bool)

  /** Timeouts, routing mode and policies: fields that no modelled operation inspects. */
  datatype Options = Options(
    startupTimeout: int,
    requestTimeout: int,
    idleTimeout: int,
    routing: string,
    credentialPolicy: string,
    authorizationPolicy: string)

  datatype Tool = Tool(
    id: string,
    transport: Transport,
    stdio: Option<Stdio>,
    http: Option<HTTP>,
    grpc: Option<GRPC>,
    options: Options,
    state: ToolState,
    maxSessions: int)

  datatype ToolError =
    | MissingID
    | MissingCommand
    | MissingURL
    | UnknownTransport
    | MissingGRPC
    | MissingTarget
    | MissingService
    | BothDescriptorSources
    | NoDescriptorSource

  /** What a valid definition is: an ID, and exactly what its transport needs. */
  predicate WellDefined(t: Tool) {
    && t.id != ""
    && match t.transport
       case StdioTransport => t.stdio.Some? && t.stdio.value.command != ""
       case HTTPTransport => t.http.Some? && t.http.value.url != ""
       case GRPCTransport =>
         && t.grpc.Some?
         && t.grpc.value.target != ""
         && t.grpc.value.service != ""
         && ((t.grpc.value.descriptorSet != "") != t.grpc.value.reflection)
       case OtherTransport(_) => false
  }

  /** The first rule the definition breaks, in the order the checks run. */
  function Validate(t: Tool): (r: Option<ToolError>)
    ensures r.None? <==> WellDefined(t)
  {
    if t.id == "" then Some(MissingID)
    else match t.transport
      case StdioTransport =>
        if t.stdio.None? || t.stdio.value.command == "" then Some(MissingCommand) else None
      case HTTPTransport =>
        if t.http.None? || t.http.value.url == "" then Some(MissingURL) else None
      case GRPCTransport => ValidateGRPC(t)
      case OtherTransport(_) => Some(UnknownTransport)
  }

  function ValidateGRPC(t: Tool): Option<ToolError> {
    if t.grpc.None? then Some(MissingGRPC)
    else if t.grpc.value.target == "" then Some(MissingTarget)
    else if t.grpc.value.service == "" then Some(MissingService)
    else if t.grpc.value.descriptorSet != "" && t.grpc.value.reflection then Some(BothDescriptorSources)
    else if t.grpc.value.descriptorSet == "" && !t.grpc.value.reflection then Some(NoDescriptorSource)
    else None
  }

  /** Which error: that of the first rule broken, in the order ID, transport, its settings. */
  lemma ValidateNamesFirstBroken(t: Tool)
    ensures var e := Validate(t);
      && (e == Some(MissingID) <==> t.id == "")
      && (e == Some(UnknownTransport) <==> t.id != "" && t.transport.OtherTransport?)
      && (e == Some(MissingCommand) <==>
            t.id != "" && t.transport.StdioTransport? && (t.stdio.None? || t.stdio.value.command == ""))
      && (e == Some(MissingURL) <==>
            t.id != "" && t.transport.HTTPTransport? && (t.http.None? || t.http.value.url == ""))
      && (e == Some(MissingGRPC) <==> t.id != "" && t.transport.GRPCTransport? && t.grpc.None?)
      && (t.id != "" && t.transport.GRPCTransport? && t.grpc.Some? ==>
            var g := t.grpc.value;
            && (e == Some(MissingTarget) <==> g.target == "")
            && (e == Some(MissingService) <==> g.target != "" && g.service == "")
            && (e == Some(BothDescriptorSources) <==>
                  g.target != "" && g.service != "" && g.descriptorSet != "" && g.reflection)
            && (e == Some(NoDescriptorSource) <==>
                  g.target != "" && g.service != "" && g.descriptorSet == "" && !g.reflection))
  {
  }
}
