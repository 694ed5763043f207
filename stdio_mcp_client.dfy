/**
 * `StdioMCPClient`: the tool-provider adapter that talks to a server run
 * as a Docker container over standard input and output. The container, the
 * transport and the MCP session are foreign; what `connect` achieves is a
 * `Handshake` parameter, and what the server answers to
 * `list_tools` and `call_tool` are parameters of the methods that make
 * those requests (a `Failure` is the request raising).
 */
module StdioMcp {
  import opened Wrappers
  import opened McpTypes

  class StdioMcpClient {
    const dockerImage: string
    /** `None` until `connect` has opened the session. */
    var session: Option<Session>

    constructor (dockerImage: string)
      ensures this.dockerImage == dockerImage && session == None
    {
      this.dockerImage := dockerImage;
      session := None;
    }

    /**
     * `connect`: starts the container (`docker run --rm -i <image>`),
     * opens the session, then runs
     * `initialize`. A transport failure leaves the session as it was; once
     * the session is open it stays recorded, even when `initialize` raises.
     */
    method Connect(handshake: Handshake) returns (r: Result<(), string>)
      modifies this
      ensures r.Success? <==> handshake.Established?
      ensures r.Failure? ==> r.error == handshake.reason
      ensures session == if handshake.TransportFailed? then old(session) else Some(Session(dockerImage))
    {
      if handshake.TransportFailed? {
        return Failure(handshake.reason);
      }
      session := Some(Session(dockerImage));
      if handshake.InitializeFailed? {
        return Failure(handshake.reason);
      }
      return Success(());
    }

    /** `create`: a new client on which `connect` has run; a failing `connect` propagates. */
    static method Create(dockerImage: string, handshake: Handshake) returns (r: Result<StdioMcpClient, string>)
      ensures r.Success? <==> handshake.Established?
      ensures r.Failure? ==> r.error == handshake.reason
      ensures r.Success? ==> fresh(r.value) && r.value.dockerImage == dockerImage && r.value.session == Some(Session(dockerImage))
    {
      var instance := new StdioMcpClient(dockerImage);
      var connected := instance.Connect(handshake);
      if connected.Failure? {
        return Failure(connected.error);
      }
      return Success(instance);
    }

    /**
     * `get_tools`: without a session, the not-connected error before any
     * request; otherwise the append loop builds one function descriptor
     * per listed tool, in order.
     */
    method GetTools(listing: Result<seq<McpTool>, string>) returns (r: Result<seq<ToolDescriptor>, string>)
      ensures session.None? ==> r == Failure(NotConnected)
      ensures session.Some? && listing.Failure? ==> r == Failure(listing.error)
      ensures session.Some? && listing.Success? ==>
        r.Success? && |r.value| == |listing.value| &&
        forall k :: 0 <= k < |listing.value| ==> r.value[k] == Describe(listing.value[k])
    {
      if session.None? {
        return Failure(NotConnected);
      }
      if listing.Failure? {
        return Failure(listing.error);
      }
      var dialTools: seq<ToolDescriptor> := [];
      for i := 0 to |listing.value|
        invariant |dialTools| == i
        invariant forall k :: 0 <= k < i ==> dialTools[k] == Describe(listing.value[k])
      {
        var tool := listing.value[i];
        var dialTool := ToolDescriptor("function", FunctionSpec(tool.name, tool.description, tool.inputSchema));
        dialTools := dialTools + [dialTool];
      }
      return Success(dialTools);
    }

    /**
     * `call_tool`: without a session, the not-connected error whatever the
     * server would answer; otherwise the normalised result of the server's
     * reply.
     */
    method CallTool(toolName: string, toolArgs: Json, reply: Result<seq<ContentPart>, string>) returns (r: Result<ToolValue, string>)
      ensures session.None? ==> r == Failure(NotConnected)
      ensures session.Some? && reply.Failure? ==> r == Failure(reply.error)
      ensures session.Some? && reply.Success? ==> r == Success(ResultValue(reply.value))
    {
      if session.None? {
        return Failure(NotConnected);
      }
      if reply.Failure? {
        return Failure(reply.error);
      }
      var content := reply.value;
      if |content| > 0 {
        var firstContent := content[0];
        if firstContent.TextContent? {
          return Success(Text(firstContent.text));
        }
      }
      return Success(Raw(content));
    }
  }
}
