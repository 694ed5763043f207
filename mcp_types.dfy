/**
 * Shapes shared by the two tool-provider adapters (network transport and
 * process transport) and by their callers: MCP tool listings, the
 * function-calling descriptors handed to the model, tool results, and the
 * normalisation both adapters apply to a tool result.
 */
module McpTypes {
  import opened Wrappers

  /** A JSON value (tool input schemas and parsed tool arguments). */
  datatype Json =
    | JNull
    | JBool(b: bool)
    | JNumber(n: int)
    | JString(s: string)
    | JArray(items: seq<Json>)
    | JObject(members: seq<(string, Json)>)

  /** One entry of an MCP `list_tools` reply. */
  datatype McpTool = McpTool(name: string, description: Option<string>, inputSchema: Json)

  /** `{"name", "description", "parameters"}` inside a descriptor. */
  datatype FunctionSpec = FunctionSpec(name: string, description: Option<string>, parameters: Json)

  /** `{"type": "function", "function": {...}}`, the form the model consumes
      (`fn` holds the `"function"` member). */
  datatype ToolDescriptor = ToolDescriptor(descriptorType: string, fn: FunctionSpec)

  /**
   * One part of an MCP tool result. `repr` is the text Python's `repr`
   * gives the part object, which `str` of a list of parts is built from.
   */
  datatype ContentPart = TextContent(text: string, repr: string) | OtherContent(repr: string)

  /** What an adapter's `call_tool` returns: a text or the raw content list. */
  datatype ToolValue = Text(text: string) | Raw(parts: seq<ContentPart>)

  /** The session an adapter holds once `connect` got as far as opening it. */
  datatype Session = Session(endpoint: string)

  /** How a `connect` attempt goes. */
  datatype Handshake =
    | Established
    | TransportFailed(reason: string)   // the transport context could not be entered
    | InitializeFailed(reason: string)  // the session opened but `initialize` raised

  /** The three tool providers registered at startup. */
  datatype Provider = Ums | Fetch | DuckDuckGo

  const NotConnected: string := "MCP client not connected. Call connect() first."

  /** Maps one MCP tool to its function-calling descriptor. */
  function Describe(t: McpTool): ToolDescriptor {
    ToolDescriptor("function", FunctionSpec(t.name, t.description, t.inputSchema))
  }

  /**
   * The list comprehension of `get_tools`: one function descriptor per
   * tool, in order, each carrying its own tool's name, description and
   * input schema.
   */
  function DescribeAll(ts: seq<McpTool>): (ds: seq<ToolDescriptor>)
    ensures |ds| == |ts|
    ensures forall k :: 0 <= k < |ts| ==>
      && ds[k].descriptorType == "function"
      && ds[k].fn.name == ts[k].name
      && ds[k].fn.description == ts[k].description
      && ds[k].fn.parameters == ts[k].inputSchema
  {
    seq(|ts|, k requires 0 <= k < |ts| => Describe(ts[k]))
  }

  /** The name a registered descriptor is filed under (`tool["function"]["name"]`). */
  function NameOf(d: ToolDescriptor): string {
    d.fn.name
  }

  /**
   * Result normalisation of `call_tool`: the text of the first part when it
   * is a text part, otherwise the content list itself.
   */
  function ResultValue(content: seq<ContentPart>): ToolValue {
    if |content| > 0 && content[0].TextContent? then Text(content[0].text) else Raw(content)
  }

  /** Only the first part decides the result; later parts are ignored. */
  lemma ResultIgnoresLaterParts(first: ContentPart, rest: seq<ContentPart>, other: seq<ContentPart>)
    requires first.TextContent?
    ensures ResultValue([first] + rest) == ResultValue([first] + other) == Text(first.text)
  {
  }

  /**
   * The text a TOOL message carries for a server reply (`str(tool_result)`):
   * the text of a leading text part as is; otherwise the printed list, which
   * is bracketed, is `[]` for an empty reply and shows a single non-text
   * part by its `repr`.
   */
  lemma ResultText(content: seq<ContentPart>)
    ensures content != [] && content[0].TextContent? ==> Str(ResultValue(content)) == content[0].text
    ensures !(content != [] && content[0].TextContent?) ==>
      && |Str(ResultValue(content))| >= 2
      && Str(ResultValue(content))[0] == '['
      && Str(ResultValue(content))[|Str(ResultValue(content))| - 1] == ']'
    ensures content == [] ==> Str(ResultValue(content)) == "[]"
    ensures |content| == 1 && content[0].OtherContent? ==> Str(ResultValue(content)) == "[" + content[0].repr + "]"
  {
    if |content| == 1 && content[0].OtherContent? {
      assert Reprs(content) == [content[0].repr];
    }
  }

  function Join(sep: string, parts: seq<string>): string {
    if parts == [] then "" else if |parts| == 1 then parts[0] else parts[0] + sep + Join(sep, parts[1..])
  }

  function Reprs(parts: seq<ContentPart>): (rs: seq<string>)
    ensures |rs| == |parts|
  {
    if parts == [] then [] else [parts[0].repr] + Reprs(parts[1..])
  }

  /** Python's `str(tool_result)`: a text is itself, a list prints as `[repr, repr, ...]`. */
  function Str(v: ToolValue): string {
    match v
    case Text(s) => s
    case Raw(parts) => "[" + Join(", ", Reprs(parts)) + "]"
  }
}
