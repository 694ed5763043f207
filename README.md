# UMS agent core: a verified Dafny model

The UMS agent is a chat back end. It answers users with a language model that can call tools. The tools come from three MCP (Model Context Protocol) servers:

- the User Management Service (UMS) server, reached over streamable HTTP;
- a remote Fetch server, also over HTTP;
- a DuckDuckGo search server, run as a Docker container and reached over standard input and output.

Conversations are kept in Redis. This project models the core of the agent and proves what that core promises.

- **Credit-card redaction** (`PiiFilter`, module `PiiFilter`). Seven regular expressions are applied in turn, each through `re.sub`. Each pattern is modelled without a regex engine, by three things:
  - the shape of the text it accepts;
  - the match lengths in the order backtracking tries them;
  - the word boundaries `\b` at both ends.

  `Substitute` is the leftmost, non-overlapping scan of `re.sub`.
- **Tool-call reassembly** (`_collect_tool_calls`, module `ToolCallAssembly`). Fragments of streamed tool calls are folded, indexed by position, into one call per index.
- **The orchestration loop** (`DialClient`). Module `DialSpec` gives it as functions of a scripted model: tool dispatch (`_call_tools`), the non-streaming loop (`response`) and the streaming loop (`stream_response`). In module `Dial`, `DialClient` is the step-by-step class that appends to the shared message list. Each of its methods is proved equal to those functions.
- **The conversation store and session coordinator** (`ConversationManager`, module `Conversations`).
  - Redis is two maps:
    - the records under `conversation:<id>`;
    - the sorted set `conversations:list`, from id to score.
  - The clock's readings strictly increase.
  - `CreateConversation`, `DeleteConversation`, `SaveConversationMessages`, `StreamChat`, `NonStreamChat` and `Chat` each keep a store invariant, and the constructor establishes it. `SaveConversation` keeps it only as `SaveConversationMessages` calls it, with a freshly stamped record. Under the invariant, the listing is proved to hold every conversation exactly once, most recently updated first.
- **The two MCP adapters** (`HttpMCPClient`, module `HttpMcp`, and `StdioMCPClient`, module `StdioMcp`). Each holds the session state as a field. The model covers `connect`, `get_tools` and `call_tool`.
- **Start-up tool registration** (the first part of `lifespan` in `app.py`, module `Registry`). It covers:
  - the three registration loops;
  - the containment of a Fetch failure;
  - the `DIAL_API_KEY` check.

Foreign parts of the system become parameters:

- The language model is a finite script. The i-th model call answers with the i-th entry, and a call past the end fails.
- What a tool server answers is a function from provider, name and arguments to content parts or an error text.
- `json.loads` is a function from text to an optional JSON value.
- What an MCP handshake and a `list_tools` request achieve are values passed to the methods that make them.
- `uuid.uuid4()` is a parameter of `CreateConversation`.
- The environment is a map of variables.

## Model

| member | source | states |
|---|---|---|
| PiiFilter.FilterCreditCards | agent/clients/dial_client.py:35-45 | The empty text is returned unchanged. Otherwise the result is the seven substitutions applied in list order (`Redact`). |
| PiiFilter.CardNumberRedacted | agent/clients/dial_client.py:20-45 | Take a digit run framed by non-word characters (or the text's ends) that the k-th digit-only pattern accepts whole and no earlier pattern accepts. The filter replaces it by `[CREDIT-CARD-REDACTED]`, and the text on either side is filtered as if the run were absent. |
| PiiFilter.VisaNumberRedacted | agent/clients/dial_client.py:22 | A framed 13- or 16-digit number starting with 4 is replaced by the marker. |
| PiiFilter.MasterCardNumberRedacted | agent/clients/dial_client.py:24 | A framed 16-digit number starting with 51 to 55 is replaced by the marker. |
| PiiFilter.MasterCard2SeriesNumberRedacted | agent/clients/dial_client.py:25 | A framed 16-digit number whose first four digits pass the 2-series alternation is replaced by the marker. |
| PiiFilter.MasterCard2PrefixRange | agent/clients/dial_client.py:25 | The 2-series alternation accepts exactly the four-digit prefixes 2221 to 2720. |
| PiiFilter.AmexNumberRedacted | agent/clients/dial_client.py:27 | A framed 15-digit number starting with 34 or 37 is replaced by the marker. |
| PiiFilter.Discover6011NumberRedacted | agent/clients/dial_client.py:29 | A framed 16-digit number starting with 6011 is replaced by the marker. |
| PiiFilter.Discover65NumberRedacted | agent/clients/dial_client.py:30 | A framed 16-digit number starting with 65 is replaced by the marker. |
| PiiFilter.DigitFreeTextKept | agent/clients/dial_client.py:36-45 | A text without digits comes back unchanged, because every pattern needs a digit. |
| PiiFilter.ApplyAllAroundMarker | agent/clients/dial_client.py:42-43 | Every later pass keeps a marker that has been inserted and rewrites the text on each side of it independently. |
| PiiFilter.SubstituteSplit | agent/clients/dial_client.py:43 | `re.sub` splits at a character that no match can cross. What precedes it is rewritten as if the text ended there, and what follows as if the text began there. |
| PiiFilter.MatchLenLocal | agent/clients/dial_client.py:20-33 | A match never looks past a non-word character (or, for the digit-group pattern, past a non-separator). |
| PiiFilter.ShapeChars | agent/clients/dial_client.py:20-33 | Every pattern's match starts and ends with a digit. Every character inside is a digit, or a separator for the digit-group pattern only. |
| PiiFilter.NoDigitsUnchanged | agent/clients/dial_client.py:43 | One substitution leaves a text without digits unchanged. |
| ToolCallAssembly.CollectToolCalls | agent/clients/dial_client.py:184-210 | The calls follow the order in which each index first had a fragment carrying something. Each call is that index's accumulation of fragments. |
| ToolCallAssembly.TracksStep | agent/clients/dial_client.py:194-203 | One pass of the loop body keeps the table and the key order equal to the ones the fragments seen so far define. |
| ToolCallAssembly.StepEffect | agent/clients/dial_client.py:195-203 | One pass updates only the fragment's own entry. The entry is created, and its index appended to the key order, exactly when it was absent and the fragment carries something. |
| ToolCallAssembly.IndexOrderDistinct | agent/clients/dial_client.py:186-210 | No index yields two calls. |
| ToolCallAssembly.IndexOrderMembers | agent/clients/dial_client.py:194-203 | An index yields a call if and only if some fragment with that index carries a non-empty id, name, arguments or type. |
| ToolCallAssembly.IndexOrderFirstAppearance | agent/clients/dial_client.py:194-210 | Calls come out in the order in which their indices first appeared. |
| ToolCallAssembly.ArgumentsConcatenated | agent/clients/dial_client.py:200-201 | A call's arguments are its index's non-empty argument fragments, concatenated in arrival order. |
| ToolCallAssembly.LastNonEmptyWins | agent/clients/dial_client.py:196-203 | A call's id, name and type are `None` if and only if no fragment of its index carried a non-empty value. Otherwise each is the last such value. |
| ToolCallAssembly.UnlistedIsPending | agent/clients/dial_client.py:186-192 | An index that no fragment touched keeps the defaultdict's initial accumulator. |
| DialSpec.ToolRoundComplete | agent/clients/dial_client.py:219-262 | A round raises nothing if and only if every call's arguments parse. In that case it appends exactly one TOOL message per call, in order, answering with the call's id. |
| DialSpec.ToolRoundAbort | agent/clients/dial_client.py:219-221 | If the arguments of call j are the first that do not parse, the round raises at j. The messages of the j earlier calls are already appended. |
| DialSpec.ToolRoundOnlyTool | agent/clients/dial_client.py:229-262 | A round appends only TOOL messages. |
| DialSpec.RespondRounds | agent/clients/dial_client.py:76-112 | A successful `response` asks the model N+1 times: the first N answers carry tool calls, and answer N+1 is the first without. It returns that answer's redacted content (`content or ""`). |
| DialSpec.RespondCompletes | agent/clients/dial_client.py:76-112 | Conversely, take N answers carrying tool calls whose arguments all parse, followed by an answer without tool calls. Then `response` succeeds after N+1 model calls and returns that answer's message. |
| DialSpec.RespondAppendsOnlyToolTurns | agent/clients/dial_client.py:99-112 | `response` appends only tool-calling assistant messages and TOOL messages. The final answer is returned but never appended. |
| DialSpec.RespondDirectAnswer | agent/clients/dial_client.py:106-112 | An answer without tool calls ends the loop after one model call, with nothing appended. |
| DialSpec.RespondIgnoresUnusedTurns | agent/clients/dial_client.py:106-109 | Model answers after the final one are never consulted. |
| DialSpec.BufferIsEmitted | agent/clients/dial_client.py:135-148 | `content_buffer` is exactly the concatenation of the content frames emitted, so the buffered assistant message matches what the client saw. |
| DialSpec.StreamEnding | agent/clients/dial_client.py:153-180 | A completed stream emits content frames, then exactly one stop frame followed by the done frame. Tool rounds add no ending of their own. A stream that raises emits only content frames. |
| DialSpec.StreamRounds | agent/clients/dial_client.py:153-172 | A completed stream answers at the first model call whose chunks carry no tool fragments. The last message it appends is that call's buffered content as an assistant message. |
| DialSpec.StreamCompletes | agent/clients/dial_client.py:153-172 | Conversely, take N streams whose tool fragments assemble into calls whose arguments all parse, followed by a stream without tool fragments. Then the stream completes after N+1 model calls, and the last message it appends is the final stream's buffered text. |
| DialSpec.StreamContinues | agent/clients/dial_client.py:153-170 | After a model call whose tool round completes, the fault, the number of further model calls and the last appended message are those of the recursive call. |
| DialSpec.ToolFragmentsNotEmitted | agent/clients/dial_client.py:138-151 | Chunks that carry no text emit no frames, whatever tool fragments they carry. |
| DialSpec.StreamStep | agent/clients/dial_client.py:135-151 | Chunk i adds its redacted text (if any) as a frame and to the buffer, and adds its tool fragments to `tool_deltas`. |
| Dial.DialClient.constructor | agent/clients/dial_client.py:51-61 | Stores the model name, the descriptors and the tool side. |
| Dial.DialClient.CallTools | agent/clients/dial_client.py:212-264 | Appends to the history exactly the messages of `ToolRound`, and raises its fault. |
| Dial.DialClient.Response | agent/clients/dial_client.py:76-112 | The history grows by exactly `Respond(...).appended`. The returned message or fault and the number of model calls are those of `Respond`. |
| Dial.DialClient.StreamResponse | agent/clients/dial_client.py:114-182 | The frames, the fault, the messages appended and the model calls are exactly those of `StreamRespond`. |
| Conversations.SeededShape | agent/conversation_manager.py:143-149 | The working history ends with the user message. It is `[system prompt, user]` when nothing was stored. Otherwise it extends the stored history unchanged. |
| Conversations.SummariesFromRecords | agent/conversation_manager.py:66-77 | Every summary comes from an existing record. Ids without a record are skipped. |
| Conversations.SummariesComplete | agent/conversation_manager.py:66-77 | When every id has a record, there is one summary per id, in order, with the record's message count. |
| Conversations.NewestFirst | agent/conversation_manager.py:61-84 | In a store that keeps the invariant, the listing holds every conversation exactly once, in strictly decreasing `updated_at` order. |
| Conversations.HighestExists | agent/conversation_manager.py:64 | A non-empty set of members of the sorted set has one with the highest score. |
| Conversations.DistinctCovers | agent/conversation_manager.py:64 | A duplicate-free listing of a key set has the set's size. |
| Conversations.Restamped | agent/conversation_manager.py:212-231 | Two conditions keep the store invariant: the record is stamped later than every earlier reading, and it is scored later still. The record then outranks every other. |
| Conversations.ConversationManager.constructor | agent/conversation_manager.py:23-26 | An empty store that satisfies the invariant. |
| Conversations.ConversationManager.Now | agent/conversation_manager.py:31 | Each clock reading is later than every earlier reading. |
| Conversations.ConversationManager.CreateConversation | agent/conversation_manager.py:28-59 | Stores an empty conversation under the new id, with `created_at == updated_at`. It scores the conversation with a later reading that exceeds every existing score, and keeps the invariant. |
| Conversations.ConversationManager.RevRange | agent/conversation_manager.py:64 | Returns every member of the sorted set once, highest score first. |
| Conversations.ConversationManager.ListConversations | agent/conversation_manager.py:61-84 | Returns one summary per member whose record exists, in sorted-set order. Under the invariant, there is one summary per conversation, newest update first. |
| Conversations.ConversationManager.SummariesOf | agent/conversation_manager.py:66-77 | Returns one summary per listed id whose record exists, in order. |
| Conversations.ConversationManager.GetConversation | agent/conversation_manager.py:86-104 | Returns `None` if and only if no record is stored under the id, and otherwise the stored record. |
| Conversations.ConversationManager.DeleteConversation | agent/conversation_manager.py:106-118 | Returns `true` if and only if the record existed. It removes the record and, only then, the index entry. It keeps the invariant. |
| Conversations.ConversationManager.SaveConversation | agent/conversation_manager.py:219-233 | Writes the record under its own id and scores it with a fresh reading. |
| Conversations.ConversationManager.SaveConversationMessages | agent/conversation_manager.py:198-217 | Replaces the stored messages and stamps `updated_at`, keeping id, title and `created_at`. It re-scores the record above every other and keeps the invariant. A missing record changes nothing. |
| Conversations.ConversationManager.StreamChat | agent/conversation_manager.py:156-171 | Emits the conversation-id frame, then the orchestration frames unchanged. It saves the working history, freshly stamped and re-scored, only when the stream completes. A faulted stream changes nothing in the store. |
| Conversations.ConversationManager.NonStreamChat | agent/conversation_manager.py:173-196 | On success, saves the history that `response` left, freshly stamped and re-scored, and returns the answer's content with the id. A failure changes nothing in the store. |
| Conversations.ConversationManager.Chat | agent/conversation_manager.py:120-154 | Returns not-found if and only if the id is unknown, and then changes nothing. Otherwise it seeds the history and returns the streamed frames, the answer or the failure. A turn that raises leaves records, index and clock unchanged. After a completed turn in a valid store, only this conversation is rewritten: its messages are the seeded history plus what the turn appended, its title and `created_at` are kept, and it is stamped and scored with fresh readings. The invariant is kept. |
| HttpMcp.HttpMcpClient.constructor | agent/clients/http_mcp_client.py:14-19 | A client for the URL with no session. |
| HttpMcp.HttpMcpClient.Connect | agent/clients/http_mcp_client.py:29-46 | Succeeds if and only if the handshake is established. A transport failure leaves the session as it was. Once the session is opened it stays recorded, even when `initialize` raises. |
| HttpMcp.HttpMcpClient.Create | agent/clients/http_mcp_client.py:21-27 | Yields a fresh connected client if and only if `connect` succeeds. Otherwise `connect`'s error propagates. |
| HttpMcp.HttpMcpClient.GetTools | agent/clients/http_mcp_client.py:48-78 | Without a session, fails with the not-connected error. The listing's error propagates. Otherwise returns one function descriptor per listed tool, in order. |
| HttpMcp.HttpMcpClient.CallTool | agent/clients/http_mcp_client.py:80-112 | Without a session, fails with the not-connected error. Otherwise returns the text of a leading text part, or else the content list. |
| StdioMcp.StdioMcpClient.constructor | agent/clients/stdio_mcp_client.py:14-20 | A client for the image with no session. |
| StdioMcp.StdioMcpClient.Connect | agent/clients/stdio_mcp_client.py:30-54 | Same as the HTTP adapter's `connect`, for the container transport. |
| StdioMcp.StdioMcpClient.Create | agent/clients/stdio_mcp_client.py:22-28 | Yields a fresh connected client if and only if `connect` succeeds. |
| StdioMcp.StdioMcpClient.GetTools | agent/clients/stdio_mcp_client.py:56-86 | Without a session, fails with the not-connected error. The listing's error propagates. Otherwise the append loop yields one descriptor per listed tool, in order. |
| StdioMcp.StdioMcpClient.CallTool | agent/clients/stdio_mcp_client.py:88-123 | Without a session, fails with the not-connected error. Otherwise returns the text of a leading text part, or else the content list. |
| McpTypes.ResultText | agent/clients/dial_client.py:257-262 | What a TOOL message carries for a server reply: the text of a leading text part as is. Otherwise it is the bracketed printed list: `[]` for an empty reply, and `[repr]` for a single non-text part. |
| McpTypes.ResultIgnoresLaterParts | agent/clients/stdio_mcp_client.py:118-121 | Only the first part decides the result. |
| McpTypes.DescribeAll | agent/clients/http_mcp_client.py:57-67 | Returns one descriptor per tool, in order. Each descriptor has type `function` and carries its own tool's name, description and input schema as parameters. |
| Registry.Register | agent/app.py:49-52 | One registration loop appends every listed descriptor to `tools` and files its name under the provider. |
| Registry.FiledEntries | agent/app.py:49-52 | A registration loop files exactly the listed names under its provider and leaves every other entry unchanged. |
| Registry.RegistrationShape | agent/app.py:40-77 | The tools are the UMS, then the Fetch, then the DuckDuckGo descriptors. The map holds exactly their names, each under the last provider that registered it. |
| Registry.MapMatchesTools | agent/app.py:40-77 | Every registered descriptor's name is in the map, and every mapped name belongs to a registered descriptor. |
| Registry.FetchFailureContained | agent/app.py:57-67 | A failing Fetch provider contributes no tools and does not stop start-up. |
| Registry.StartupAborts | agent/app.py:45-83 | A UMS failure aborts start-up; so does a DuckDuckGo failure after UMS succeeded. A missing or empty `DIAL_API_KEY` aborts start-up after registration, and nothing else causes that error. |
| Registry.OfferedByClient | agent/app.py:47-49 | `get_tools` on a connected client offers exactly the listed descriptors. |
| Registry.OfferedOverHttp | agent/app.py:45-49 | `HttpMCPClient.create` followed by `get_tools` yields the offered descriptors, or the error raised. |
| Registry.OfferedOverStdio | agent/app.py:71-73 | `StdioMCPClient.create` followed by `get_tools` yields the offered descriptors, or the error raised. |
| Registry.Lifespan | agent/app.py:40-83 | The outcome of registration is `Startup` on the `DIAL_API_KEY` read from the environment: the registration or the error that aborts it. The provider addresses are read too, but what each handshake achieves is a parameter. |

## Left out

- Async execution, logging and the Redis connection are not modelled. The store starts empty.
- `\d`, `\w` and `\s` are taken over ASCII. Python matches Unicode digits, word characters and spaces.
- The digit-group pattern (`\d{4}[\s\-]?...`) is modelled and applied, but no redaction theorem is proved for it.
- The model is a script of answers, and "the model call raised" is the end of the script. Temperature, the descriptors sent and the message serialisation (`to_dict`) are not modelled. Stored messages are assumed to come back as they were written.
- The stream is assumed to be consumed to the end.
  - A consumer that stops early, so that `_stream_chat` never saves, is not modelled.
  - A chunk whose delta is `None` is not modelled either; the source would raise on `delta.tool_calls`.
- `DialSpec.StreamRespond` and `Dial.DialClient.StreamResponse`: a model failure happens only at a model-call boundary, as the end of the script. Each stream is a finite list of chunks that always ends cleanly. Two failures in the middle of a stream are not modelled:
  - the stream raising while it is iterated (`async for chunk in stream`) after earlier chunks' content frames were already sent;
  - a chunk whose `choices` list is empty, on which `chunk.choices[0]` raises.

  So the model cannot produce content frames of a failing call followed by the error. The store contracts (`StreamChat`, `Chat`) cover any fault, wherever it arises.
- `DialSpec.Respond` and `Dial.DialClient.Response`: a completion whose `choices` list is empty, on which `response.choices[0]` raises, is not modelled separately. It behaves like the end of the script: the turn fails.
- `CallTool` methods: the MCP `isError` flag of a tool result is not consulted, just as the source does not consult it.
- The clock: the ISO `updated_at` string and the float score are both readings of one clock whose readings strictly increase. Two readings never tie.
- `RevRange`: the order of members with equal scores is unspecified. Under the store invariant, no two scores are equal.
- `SaveConversationMessages`: when the record is missing, the source raises inside `json.loads`. The model leaves the store unchanged and returns `false`.
- `SYSTEM_PROMPT` is a parameter of the `ConversationManager` constructor.
- The tool servers are modelled as replies or error texts. `str()` of a content list is built from each part's `repr`, which is a value of the part.
- The Redis client handed to `ConversationManager`, and the construction of `DialClient` and the OpenAI client (`agent/app.py` lines 85-95 and later), are outside the model. So are the HTTP routes.
- Three behaviours of the code that are easy to miss:
  - Malformed tool-call arguments: `json.loads` runs outside the `try` in `_call_tools`, so they abort the turn. They are not turned into a TOOL message.
  - Non-streaming chat: `response` never appends the final assistant answer, so `_non_stream_chat` persists the history without it. The streaming path appends and persists it.
  - `_collect_tool_calls`: calls follow the insertion order of the defaultdict, not ascending index. A fragment carrying nothing creates no entry, and `type` is last-non-empty-wins like `id` and `name`.
