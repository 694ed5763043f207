/**
 * Tool registration at application startup (the first part of
 * `lifespan`): the descriptors of three providers are collected in order
 * into `tools`, and `tool_name_client_map` files each tool name under the
 * provider that registered it last. Only the Fetch provider's failures are
 * contained; a UMS or DuckDuckGo failure, or a missing `DIAL_API_KEY`,
 * aborts startup.
 *
 * The environment is a map of variables. What each provider's `connect`
 * and `list_tools` achieve are parameters (`ProviderStart`).
 */
module Registry {
  import opened Wrappers
  import opened McpTypes
  import opened HttpMcp
  import opened StdioMcp

  /** How one provider's `create` and `list_tools` go at startup. */
  datatype ProviderStart = ProviderStart(handshake: Handshake, listing: Result<seq<McpTool>, string>)

  /** What startup leaves behind: the descriptors offered to the model and the name → provider map. */
  datatype Registration = Registration(tools: seq<ToolDescriptor>, clientMap: map<string, Provider>)

  datatype StartupError =
    | ProviderFailed(provider: Provider, reason: string)
    | MissingApiKey   // the `ValueError` for an unset or empty `DIAL_API_KEY`

  const UmsUrlDefault: string := "http://localhost:8005/mcp"
  const FetchUrlDefault: string := "https://remote.mcpservers.org/fetch/mcp"
  const DdgImageDefault: string := "khshanovskyi/ddg-mcp-server:latest"

  /** `os.getenv(name, default)`. */
  function Getenv(env: map<string, string>, name: string, default: string): string {
    if name in env then env[name] else default
  }

  /** The names of a descriptor list. */
  function Names(tools: seq<ToolDescriptor>): set<string> {
    set k | 0 <= k < |tools| :: NameOf(tools[k])
  }

  /** One registration loop: `tool_name_client_map[name] = client` for each descriptor in order. */
  function Filed(m: map<string, Provider>, listed: seq<ToolDescriptor>, p: Provider): map<string, Provider>
    decreases |listed|
  {
    if listed == [] then m
    else Filed(m, listed[..|listed| - 1], p)[NameOf(listed[|listed| - 1]) := p]
  }

  /** The descriptors a provider offers, or why it failed (`create` or `get_tools` raising). */
  function Offered(s: ProviderStart): (r: Result<seq<ToolDescriptor>, string>)
  {
    if !s.handshake.Established? then Failure(s.handshake.reason)
    else if s.listing.Failure? then Failure(s.listing.error)
    else Success(DescribeAll(s.listing.value))
  }

  /** The registration `lifespan` arrives at, or the error that aborts it. */
  function Startup(ums: ProviderStart, fetch: ProviderStart, ddg: ProviderStart, apiKey: Option<string>): Result<Registration, StartupError>
  {
    if Offered(ums).Failure? then Failure(ProviderFailed(Ums, Offered(ums).error))
    else
      var fetched := if Offered(fetch).Success? then Offered(fetch).value else [];
      if Offered(ddg).Failure? then Failure(ProviderFailed(DuckDuckGo, Offered(ddg).error))
      else if apiKey.None? || apiKey.value == "" then Failure(MissingApiKey)
      else
        var u, d := Offered(ums).value, Offered(ddg).value;
        Success(Registration(u + fetched + d, Filed(Filed(Filed(map[], u, Ums), fetched, Fetch), d, DuckDuckGo)))
  }

  /**
   * A registration loop files exactly the listed names under its
   * provider and leaves every other entry as it was.
   */
  lemma {:induction false} FiledEntries(m: map<string, Provider>, listed: seq<ToolDescriptor>, p: Provider)
    ensures Filed(m, listed, p).Keys == m.Keys + Names(listed)
    ensures forall name :: name in Names(listed) ==> Filed(m, listed, p)[name] == p
    ensures forall name :: name in m && name !in Names(listed) ==> Filed(m, listed, p)[name] == m[name]
    decreases |listed|
  {
    if listed != [] {
      var init := listed[..|listed| - 1];
      FiledEntries(m, init, p);
      assert Names(listed) == Names(init) + {NameOf(listed[|listed| - 1])} by {
        forall name | name in Names(listed) ensures name in Names(init) + {NameOf(listed[|listed| - 1])} {
          var k :| 0 <= k < |listed| && NameOf(listed[k]) == name;
          if k < |init| {
            assert NameOf(init[k]) == name;
          }
        }
        forall name | name in Names(init) ensures name in Names(listed) {
          var k :| 0 <= k < |init| && NameOf(init[k]) == name;
          assert NameOf(listed[k]) == name;
        }
      }
    }
  }

  lemma NamesAppend(a: seq<ToolDescriptor>, b: seq<ToolDescriptor>)
    ensures Names(a + b) == Names(a) + Names(b)
  {
    forall name | name in Names(a + b) ensures name in Names(a) + Names(b) {
      var k :| 0 <= k < |a + b| && NameOf((a + b)[k]) == name;
      if k < |a| {
        assert NameOf(a[k]) == name;
      } else {
        assert NameOf(b[k - |a|]) == name;
      }
    }
    forall name | name in Names(a) ensures name in Names(a + b) {
      var k :| 0 <= k < |a| && NameOf(a[k]) == name;
      assert NameOf((a + b)[k]) == name;
    }
    forall name | name in Names(b) ensures name in Names(a + b) {
      var k :| 0 <= k < |b| && NameOf(b[k]) == name;
      assert NameOf((a + b)[|a| + k]) == name;
    }
  }

  /**
   * On success the tools are the UMS descriptors, then the Fetch ones (none
   * when Fetch failed), then the DuckDuckGo ones, each in the order listed;
   * the map holds exactly the registered names, each filed under the last
   * provider that registered it.
   */
  lemma RegistrationShape(ums: ProviderStart, fetch: ProviderStart, ddg: ProviderStart, apiKey: Option<string>)
    requires Startup(ums, fetch, ddg, apiKey).Success?
    ensures
      var reg := Startup(ums, fetch, ddg, apiKey).value;
      var u, d := Offered(ums).value, Offered(ddg).value;
      var f := if Offered(fetch).Success? then Offered(fetch).value else [];
      && reg.tools == u + f + d
      && reg.clientMap.Keys == Names(reg.tools)
      && (forall name :: name in Names(d) ==> name in reg.clientMap && reg.clientMap[name] == DuckDuckGo)
      && (forall name :: name in Names(f) && name !in Names(d) ==> name in reg.clientMap && reg.clientMap[name] == Fetch)
      && (forall name :: name in Names(u) && name !in Names(f) && name !in Names(d) ==> name in reg.clientMap && reg.clientMap[name] == Ums)
  {
    var u, d := Offered(ums).value, Offered(ddg).value;
    var f := if Offered(fetch).Success? then Offered(fetch).value else [];
    FiledEntries(map[], u, Ums);
    FiledEntries(Filed(map[], u, Ums), f, Fetch);
    FiledEntries(Filed(Filed(map[], u, Ums), f, Fetch), d, DuckDuckGo);
    NamesAppend(u, f);
    NamesAppend(u + f, d);
  }

  /** Every registered descriptor's name is in the map, and every mapped name belongs to a registered descriptor. */
  lemma MapMatchesTools(ums: ProviderStart, fetch: ProviderStart, ddg: ProviderStart, apiKey: Option<string>)
    requires Startup(ums, fetch, ddg, apiKey).Success?
    ensures var reg := Startup(ums, fetch, ddg, apiKey).value;
      && (forall k :: 0 <= k < |reg.tools| ==> NameOf(reg.tools[k]) in reg.clientMap)
      && (forall name :: name in reg.clientMap ==> exists k :: 0 <= k < |reg.tools| && NameOf(reg.tools[k]) == name)
  {
    RegistrationShape(ums, fetch, ddg, apiKey);
  }

  /**
   * A failing Fetch provider contributes nothing and does not stop
   * startup: the outcome is the one a Fetch provider listing no tools
   * would give.
   */
  lemma FetchFailureContained(ums: ProviderStart, fetch: ProviderStart, ddg: ProviderStart, apiKey: Option<string>)
    requires Offered(fetch).Failure?
    ensures Startup(ums, fetch, ddg, apiKey) == Startup(ums, ProviderStart(Established, Success([])), ddg, apiKey)
    ensures Offered(ums).Success? && Offered(ddg).Success? && apiKey.Some? && apiKey.value != "" ==>
      Startup(ums, fetch, ddg, apiKey).Success? &&
      Startup(ums, fetch, ddg, apiKey).value.tools == Offered(ums).value + Offered(ddg).value
  {
    assert DescribeAll([]) == [];
  }

  /**
   * A UMS failure aborts startup whatever follows; a DuckDuckGo failure
   * aborts it once UMS succeeded; the API key is checked only after all
   * providers registered.
   */
  lemma StartupAborts(ums: ProviderStart, fetch: ProviderStart, ddg: ProviderStart, apiKey: Option<string>)
    ensures Offered(ums).Failure? ==> Startup(ums, fetch, ddg, apiKey) == Failure(ProviderFailed(Ums, Offered(ums).error))
    ensures Offered(ums).Success? && Offered(ddg).Failure? ==>
      Startup(ums, fetch, ddg, apiKey) == Failure(ProviderFailed(DuckDuckGo, Offered(ddg).error))
    ensures Startup(ums, fetch, ddg, apiKey) == Failure(MissingApiKey) <==>
      Offered(ums).Success? && Offered(ddg).Success? && (apiKey.None? || apiKey.value == "")
  {
  }

  /** One registration loop: appends each descriptor to `tools` and files its name under `p`. */
  method Register(tools: seq<ToolDescriptor>, clientMap: map<string, Provider>, listed: seq<ToolDescriptor>, p: Provider)
    returns (tools': seq<ToolDescriptor>, clientMap': map<string, Provider>)
    ensures tools' == tools + listed
    ensures clientMap' == Filed(clientMap, listed, p)
  {
    tools', clientMap' := tools, clientMap;
    for i := 0 to |listed|
      invariant tools' == tools + listed[..i]
      invariant clientMap' == Filed(clientMap, listed[..i], p)
    {
      var tool := listed[i];
      var toolName := NameOf(tool);
      assert listed[..i + 1][..i] == listed[..i];
      tools' := tools' + [tool];
      clientMap' := clientMap'[toolName := p];
    }
    assert listed[..|listed|] == listed;
  }

  /** `get_tools` after a successful `create`: the offered descriptors. */
  lemma OfferedByClient(listing: Result<seq<McpTool>, string>, got: Result<seq<ToolDescriptor>, string>)
    requires listing.Failure? ==> got == Failure(listing.error)
    requires listing.Success? ==> (got.Success? && |got.value| == |listing.value| &&
      forall k :: 0 <= k < |listing.value| ==> got.value[k] == Describe(listing.value[k]))
    ensures got == Offered(ProviderStart(Established, listing))
  {
    if listing.Success? {
      assert got.value == DescribeAll(listing.value);
    }
  }

  /** `await HttpMCPClient.create(url)` followed by `get_tools()`: the descriptors offered, or the error raised. */
  method OfferedOverHttp(url: string, start: ProviderStart) returns (r: Result<seq<ToolDescriptor>, string>)
    ensures r == Offered(start)
  {
    var client := HttpMcpClient.Create(url, start.handshake);
    if client.Failure? {
      return Failure(client.error);
    }
    r := client.value.GetTools(start.listing);
    OfferedByClient(start.listing, r);
  }

  /** `await StdioMCPClient.create(image)` followed by `get_tools()`. */
  method OfferedOverStdio(dockerImage: string, start: ProviderStart) returns (r: Result<seq<ToolDescriptor>, string>)
    ensures r == Offered(start)
  {
    var client := StdioMcpClient.Create(dockerImage, start.handshake);
    if client.Failure? {
      return Failure(client.error);
    }
    r := client.value.GetTools(start.listing);
    OfferedByClient(start.listing, r);
  }

  /**
   * The registration part of `lifespan`: connects each provider, registers
   * its tools, and checks `DIAL_API_KEY` last; the outcome is `Startup`.
   */
  method Lifespan(env: map<string, string>, ums: ProviderStart, fetch: ProviderStart, ddg: ProviderStart)
    returns (r: Result<Registration, StartupError>)
    ensures r == Startup(ums, fetch, ddg, if "DIAL_API_KEY" in env then Some(env["DIAL_API_KEY"]) else None)
  {
    var tools: seq<ToolDescriptor> := [];
    var toolNameClientMap: map<string, Provider> := map[];

    var umsUrl := Getenv(env, "UMS_MCP_URL", UmsUrlDefault);
    var umsTools := OfferedOverHttp(umsUrl, ums);
    if umsTools.Failure? {
      return Failure(ProviderFailed(Ums, umsTools.error));
    }
    tools, toolNameClientMap := Register(tools, toolNameClientMap, umsTools.value, Ums);
    assert tools == umsTools.value;

    var fetchUrl := Getenv(env, "FETCH_MCP_URL", FetchUrlDefault);
    var fetchTools := OfferedOverHttp(fetchUrl, fetch);
    var fetched: seq<ToolDescriptor> := [];
    if fetchTools.Success? {
      fetched := fetchTools.value;
      tools, toolNameClientMap := Register(tools, toolNameClientMap, fetched, Fetch);
    }

    var ddgImage := Getenv(env, "DDG_DOCKER_IMAGE", DdgImageDefault);
    var ddgTools := OfferedOverStdio(ddgImage, ddg);
    if ddgTools.Failure? {
      return Failure(ProviderFailed(DuckDuckGo, ddgTools.error));
    }
    assert tools == umsTools.value + fetched;
    assert toolNameClientMap == Filed(Filed(map[], umsTools.value, Ums), fetched, Fetch);
    tools, toolNameClientMap := Register(tools, toolNameClientMap, ddgTools.value, DuckDuckGo);

    var dialApiKey := if "DIAL_API_KEY" in env then Some(env["DIAL_API_KEY"]) else None;
    if dialApiKey.None? || dialApiKey.value == "" {
      return Failure(MissingApiKey);
    }
    return Success(Registration(tools, toolNameClientMap));
  }
}
