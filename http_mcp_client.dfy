/**
 * `HttpMCPClient`: the tool-provider adapter over the streamable-HTTP
 * transport. The transport and the MCP session are foreign; what `connect`
 * achieves is a `Handshake` parameter, and what the server answers to
 * `list_tools` and `call_tool` are parameters of the methods that make
 * those requests (a `Failure` is the request raising).
 */
module HttpMcp {
  import opened Wrappers
  import opened McpTypes

  class HttpMcpClient {
    const serverUrl: string
    /** `None` until `connect` has opened the session. */
    var session: Option<Session>

    constructor (serverUrl: string)
      ensures this.serverUrl == serverUrl && session == None
    {
      this.serverUrl := serverUrl;
      session := None;
    }

    /**
     * `connect`: enters the transport, opens the session, then runs
     * `initialize`. A transport failure leaves the session as it was; once
     * the session is open it stays recorded, even when `initialize` raises.
     */
    method Connect(handshake: Handshake) returns (r: Result<(), string>)
      modifies this
      ensures r.Success? <==> handshake.Established?
      ensures r.Failure? ==> r.error == handshake.reason
      ensures session == if handshake.TransportFailed? then old(session) else Some(Session(serverUrl))
    {
      if handshake.TransportFailed? {
        return Failure(handshake.reason);
      }
      session := Some(Session(serverUrl));
      if handshake.InitializeFailed? {
        return Failure(handshake.reason);
      }
      return Success(());
    }

    /** `create`: a new client on which `connect` has run; a failing `connect` propagates. */
    static method Create(serverUrl: string, handshake: Handshake) returns (r: Result<HttpMcpClient, string>)
      ensures r.Success? <==> handshake.Established?
      ensures r.Failure? ==> r.error == handshake.reason
      ensures r.Success? ==> fresh(r.value) && r.value.serverUrl == serverUrl && r.value.session == Some(Session(serverUrl))
    {
      var instance := new HttpMcpClient(serverUrl);
      var connected := instance.Connect(handshake);
      if connected.Failure? {
        return Failure(connected.error);
      }
      return Success(instance);
    }

    /**
     * `get_tools`: without a session, the not-connected error before any
     * request; otherwise one function descriptor per listed tool, in order.
     */
    method GetTools(listing: Result<seq<McpTool>, string>) returns (r: Result<seq<ToolDescriptor>, string>)
      ensures session.None? ==> r == Failure(NotConnected)
      ensures session.Some? && listing.Failure? ==> r == Failure(listing.error)
      ensures session.Some? && listing.Success? ==>
        r.Success? && |r.value| == |listing.value| &&
        forall k :: 0 <= k < |listing.value| ==> r.value[k] == Describe(listing.value[k])
    {
      if session.None? {
        return Failure(NotConnected);
      }
      if listing.Failure? {
        return Failure(listing.error);
      }
      return Success(DescribeAll(listing.value));
    }

    /**
     * `call_tool`: without a session, the not-connected error whatever the
     * server would answer; otherwise the normalised result of the server's
     * reply.
     */
    method CallTool(toolName: string, toolArgs: Json, reply: Result<seq<ContentPart>, string>) returns (r: Result<ToolValue, string>)
      ensures session.None? ==> r == Failure(NotConnected)
      ensures session.Some? && reply.Failure? ==> r == Failure(reply.error)
      ensures session.Some? && reply.Success? ==> r == Success(ResultValue(reply.value))
    {
      if session.None? {
        return Failure(NotConnected);
      }
      if reply.Failure? {
        return Failure(reply.error);
      }
      var content := reply.value;
      if |content| > 0 {
        var firstContent := content[0];
        if firstContent.TextContent? {
          return Success(Text(firstContent.text));
        }
      }
      return Success(Raw(content));
    }
  }
}
