/**
 * Reference semantics of the orchestration loop of `DialClient`: tool
 * dispatch (`_call_tools`), the non-streaming loop (`response`) and the
 * streaming loop (`stream_response`), as functions of a scripted model and
 * of the tool servers' replies. The imperative client in module `Dial` is
 * proved equal to these functions; the lemmas below state what the loop
 * promises about them.
 *
 * The language model is a finite script: the i-th model call answers with
 * the i-th entry, and a call past the end of the script fails. The tool
 * servers and `json.loads` are deterministic oracles.
 */
module DialSpec {
  import opened Wrappers
  import opened Messages
  import opened McpTypes
  import PiiFilter
  import opened ToolCallAssembly

  /** The message of a non-streamed completion: `choices[0].message`. */
  datatype Completion = Completion(content: Option<string>, toolCalls: seq<ToolCall>)

  /** The delta of one streamed chunk: `choices[0].delta`. */
  datatype StreamChunk = StreamChunk(content: Option<string>, toolCalls: seq<ToolCallDelta>)

  /** Why a turn aborts with an exception. */
  datatype Fault =
    | ModelUnavailable                   // the model call itself raised
    | MalformedArguments(arguments: string)  // `json.loads` rejected a call's arguments

  /** The server-sent frames of a streamed answer, before JSON framing. */
  datatype Event =
    | ConversationIdFrame(id: string)  // `{"conversation_id": ...}`
    | ContentFrame(text: string)       // a `choices[0].delta.content` chunk
    | StopFrame                        // the chunk with `finish_reason: "stop"`
    | DoneFrame                        // `data: [DONE]`

  /**
   * What the tool side of the client sees: the name-to-provider map built at
   * start-up, each provider's reply to a call (content parts, or the text of
   * the exception it raised), and `json.loads` on argument text.
   */
  datatype Toolbox = Toolbox(
    providers: map<string, Provider>,
    serve: (Provider, string, Json) -> Result<seq<ContentPart>, string>,
    parse: string -> Option<Json>)

  /** `f"{tool_name}"` for a name that may be `None`. */
  function NameText(name: Option<string>): string {
    if name.Some? then name.value else "None"
  }

  function NotFoundText(name: Option<string>): string {
    "Tool '" + NameText(name) + "' not found in available tools"
  }

  function FailedText(err: string): string {
    "Tool execution failed: " + err
  }

  /** Whether the provider map has an entry for the call's name. */
  predicate Known(tb: Toolbox, name: Option<string>) {
    name.Some? && name.value in tb.providers
  }

  /** The content of the TOOL message answering one call whose arguments parsed to `args`. */
  function ToolResultText(tb: Toolbox, name: Option<string>, args: Json): string {
    if !Known(tb, name) then NotFoundText(name)
    else
      match tb.serve(tb.providers[name.value], name.value, args)
      case Failure(err) => FailedText(err)
      case Success(content) => Str(ResultValue(content))
  }

  /** The TOOL message answering a call whose arguments parsed to `args`. */
  function Answer(tb: Toolbox, call: ToolCall, args: Json): Message {
    ToolMessage(ToolResultText(tb, call.name, args), call.id)
  }

  /**
   * `_call_tools`: the TOOL messages appended, in call order, and the fault
   * that stopped the loop, if any. Arguments are parsed before the name is
   * looked up and outside the `try`, so malformed arguments end the loop
   * with the messages of the earlier calls already appended.
   */
  function ToolRound(tb: Toolbox, calls: seq<ToolCall>): (r: (seq<Message>, Option<Fault>))
    decreases |calls|
  {
    if calls == [] then ([], None)
    else
      match tb.parse(calls[0].arguments)
      case None => ([], Some(MalformedArguments(calls[0].arguments)))
      case Some(args) =>
        var rest := ToolRound(tb, calls[1..]);
        ([Answer(tb, calls[0], args)] + rest.0, rest.1)
  }

  /** One step of `ToolRound` at position `i`. */
  lemma ToolRoundStep(tb: Toolbox, calls: seq<ToolCall>, i: nat)
    requires i < |calls|
    ensures tb.parse(calls[i].arguments).None? ==>
      ToolRound(tb, calls[i..]) == ([], Some(MalformedArguments(calls[i].arguments)))
    ensures tb.parse(calls[i].arguments).Some? ==>
      ToolRound(tb, calls[i..]) ==
        ([Answer(tb, calls[i], tb.parse(calls[i].arguments).value)] + ToolRound(tb, calls[i + 1..]).0,
         ToolRound(tb, calls[i + 1..]).1)
  {
    assert calls[i..][0] == calls[i] && calls[i..][1..] == calls[i + 1..];
  }

  /** Whether every call's arguments are accepted by `json.loads`. */
  predicate AllParse(tb: Toolbox, calls: seq<ToolCall>) {
    forall k :: 0 <= k < |calls| ==> tb.parse(calls[k].arguments).Some?
  }

  /**
   * A round that does not abort appends exactly one TOOL message per call,
   * in call order, each answering its call's id; it aborts exactly when
   * some call's arguments do not parse.
   */
  lemma {:induction false} ToolRoundComplete(tb: Toolbox, calls: seq<ToolCall>)
    ensures ToolRound(tb, calls).1.None? <==> AllParse(tb, calls)
    ensures AllParse(tb, calls) ==>
      |ToolRound(tb, calls).0| == |calls| &&
      forall k :: 0 <= k < |calls| ==>
        ToolRound(tb, calls).0[k] == Answer(tb, calls[k], tb.parse(calls[k].arguments).value)
    decreases |calls|
  {
    if calls != [] {
      ToolRoundComplete(tb, calls[1..]);
      assert forall k :: 1 <= k < |calls| ==> calls[1..][k - 1] == calls[k];
      if tb.parse(calls[0].arguments).Some? && AllParse(tb, calls[1..]) {
        var rest := ToolRound(tb, calls[1..]);
        forall k | 0 <= k < |calls|
          ensures ToolRound(tb, calls).0[k] == Answer(tb, calls[k], tb.parse(calls[k].arguments).value)
        {
          if k > 0 {
            assert ToolRound(tb, calls).0[k] == rest.0[k - 1];
          }
        }
      }
    }
  }

  /**
   * A round that aborts stops at the first call whose arguments do not
   * parse: the calls before it are answered in order, the rest are not.
   */
  lemma {:induction false} ToolRoundAbort(tb: Toolbox, calls: seq<ToolCall>, j: nat)
    requires j < |calls| && tb.parse(calls[j].arguments).None?
    requires forall k :: 0 <= k < j ==> tb.parse(calls[k].arguments).Some?
    ensures ToolRound(tb, calls).1 == Some(MalformedArguments(calls[j].arguments))
    ensures |ToolRound(tb, calls).0| == j
    ensures forall k :: 0 <= k < j ==>
      ToolRound(tb, calls).0[k] == Answer(tb, calls[k], tb.parse(calls[k].arguments).value)
    decreases j
  {
    if j > 0 {
      var tail := calls[1..];
      assert forall k :: 0 <= k < |tail| ==> tail[k] == calls[k + 1];
      ToolRoundAbort(tb, tail, j - 1);
      var rest := ToolRound(tb, tail);
      var args := tb.parse(calls[0].arguments).value;
      assert ToolRound(tb, calls) == ([Answer(tb, calls[0], args)] + rest.0, rest.1);
    }
  }

  /** Every message a round appends is a TOOL message. */
  lemma {:induction false} ToolRoundOnlyTool(tb: Toolbox, calls: seq<ToolCall>)
    ensures forall m :: m in ToolRound(tb, calls).0 ==> m.role == Tool
    decreases |calls|
  {
    if calls != [] {
      ToolRoundOnlyTool(tb, calls[1..]);
    }
  }

  // ---------------------------------------------------------------------
  // Non-streaming loop
  // ---------------------------------------------------------------------

  /** The outcome of `response`: what it appended, what it returned or raised, and how often it asked the model. */
  datatype Reply = Reply(appended: seq<Message>, outcome: Result<Message, Fault>, modelCalls: nat)

  /** The assistant message built from a completion: `content or ""`, redacted. */
  function Reduce(turn: Completion): Message {
    AssistantMessage(PiiFilter.Redact(turn.content.GetOr("")), turn.toolCalls)
  }

  /** `response(messages)` against the model script `script`. */
  function Respond(tb: Toolbox, script: seq<Completion>): (r: Reply)
    decreases |script|
  {
    if script == [] then Reply([], Failure(ModelUnavailable), 1)
    else
      var msg := Reduce(script[0]);
      if msg.toolCalls == [] then Reply([], Success(msg), 1)
      else
        var round := ToolRound(tb, msg.toolCalls);
        if round.1.Some? then Reply([msg] + round.0, Failure(round.1.value), 1)
        else
          var next := Respond(tb, script[1..]);
          Reply([msg] + round.0 + next.appended, next.outcome, 1 + next.modelCalls)
  }

  /** One model call of `response`, given the assistant message built from the turn. */
  lemma RespondStep(tb: Toolbox, script: seq<Completion>, msg: Message)
    requires script != [] && msg == Reduce(script[0])
    ensures msg.toolCalls == [] ==> Respond(tb, script) == Reply([], Success(msg), 1)
    ensures msg.toolCalls != [] && ToolRound(tb, msg.toolCalls).1.Some? ==>
      Respond(tb, script) == Reply([msg] + ToolRound(tb, msg.toolCalls).0, Failure(ToolRound(tb, msg.toolCalls).1.value), 1)
    ensures msg.toolCalls != [] && ToolRound(tb, msg.toolCalls).1.None? ==>
      Respond(tb, script) == Reply([msg] + ToolRound(tb, msg.toolCalls).0 + Respond(tb, script[1..]).appended,
        Respond(tb, script[1..]).outcome, 1 + Respond(tb, script[1..]).modelCalls)
  {
  }

  /**
   * A successful `response` asks the model N+1 times when the first N
   * turns carry tool calls and turn N+1 is the first without; it returns
   * turn N+1's redacted content with no tool calls.
   */
  lemma {:induction false} RespondRounds(tb: Toolbox, script: seq<Completion>)
    requires Respond(tb, script).outcome.Success?
    ensures 1 <= Respond(tb, script).modelCalls <= |script|
    ensures forall j :: 0 <= j < Respond(tb, script).modelCalls - 1 ==> script[j].toolCalls != []
    ensures script[Respond(tb, script).modelCalls - 1].toolCalls == []
    ensures Respond(tb, script).outcome.value ==
      AssistantMessage(PiiFilter.Redact(script[Respond(tb, script).modelCalls - 1].content.GetOr("")), [])
    decreases |script|
  {
    if script[0].toolCalls != [] {
      var tail := script[1..];
      RespondRounds(tb, tail);
      assert forall j :: 1 <= j < |script| ==> script[j] == tail[j - 1];
    }
  }

  /**
   * Conversely, when the first N turns carry tool calls whose arguments all
   * parse and turn N+1 carries none, `response` succeeds after N+1 model
   * calls and returns turn N+1's message.
   */
  lemma {:induction false} RespondCompletes(tb: Toolbox, script: seq<Completion>, n: nat)
    requires n < |script| && script[n].toolCalls == []
    requires forall j :: 0 <= j < n ==> script[j].toolCalls != [] && AllParse(tb, script[j].toolCalls)
    ensures Respond(tb, script).outcome == Success(Reduce(script[n]))
    ensures Respond(tb, script).modelCalls == n + 1
    decreases n
  {
    if n > 0 {
      ToolRoundComplete(tb, script[0].toolCalls);
      var tail := script[1..];
      assert forall j :: 0 <= j < n - 1 ==> tail[j] == script[j + 1];
      RespondCompletes(tb, tail, n - 1);
    }
  }

  /**
   * The final answer, the one message without tool calls, is returned but
   * never appended: every assistant message `response` appends carries
   * tool calls, and each appended tool round follows its assistant message.
   */
  lemma {:induction false} RespondAppendsOnlyToolTurns(tb: Toolbox, script: seq<Completion>)
    ensures forall m :: m in Respond(tb, script).appended ==>
      m.role == Tool || (m.role == Assistant && m.toolCalls != [])
    ensures Respond(tb, script).appended != [] ==>
      Respond(tb, script).appended[0] == Reduce(script[0]) && script[0].toolCalls != []
    decreases |script|
  {
    if script != [] && script[0].toolCalls != [] {
      ToolRoundOnlyTool(tb, script[0].toolCalls);
      var round := ToolRound(tb, script[0].toolCalls);
      if round.1.None? {
        RespondAppendsOnlyToolTurns(tb, script[1..]);
      }
    }
  }

  /** A turn without tool calls ends the loop at once: nothing is appended and the model is asked once. */
  lemma RespondDirectAnswer(tb: Toolbox, script: seq<Completion>)
    requires script != [] && script[0].toolCalls == []
    ensures Respond(tb, script) == Reply([], Success(Reduce(script[0])), 1)
  {
  }

  /** Only the turns the loop consumes matter: extending the script past them changes nothing. */
  lemma {:induction false} RespondIgnoresUnusedTurns(tb: Toolbox, script: seq<Completion>, more: seq<Completion>)
    requires Respond(tb, script).outcome.Success?
    ensures Respond(tb, script + more) == Respond(tb, script)
    decreases |script|
  {
    assert (script + more)[0] == script[0];
    if script[0].toolCalls != [] {
      assert (script + more)[1..] == script[1..] + more;
      RespondIgnoresUnusedTurns(tb, script[1..], more);
    }
  }

  // ---------------------------------------------------------------------
  // Streaming loop
  // ---------------------------------------------------------------------

  /** The frames one model stream emits: each non-empty text chunk, redacted, in arrival order. */
  function ContentEvents(chunks: seq<StreamChunk>): (events: seq<Event>)
    ensures forall e :: e in events ==> e.ContentFrame?
    decreases |chunks|
  {
    if chunks == [] then []
    else
      var c := chunks[0];
      (if Present(c.content) then [ContentFrame(PiiFilter.Redact(c.content.value))] else [])
        + ContentEvents(chunks[1..])
  }

  /** The concatenated texts of a sequence of content frames. */
  function Texts(events: seq<Event>): string
    decreases |events|
  {
    if events == [] then ""
    else (if events[0].ContentFrame? then events[0].text else "") + Texts(events[1..])
  }

  /** `content_buffer` after one stream, accumulated chunk by chunk. */
  function Buffer(chunks: seq<StreamChunk>): string
    decreases |chunks|
  {
    if chunks == [] then ""
    else Buffer(chunks[..|chunks| - 1]) + ChunkText(chunks[|chunks| - 1])
  }

  /** What one chunk adds to `content_buffer`. */
  function ChunkText(c: StreamChunk): string {
    if Present(c.content) then PiiFilter.Redact(c.content.value) else ""
  }

  /** `tool_deltas` after one stream: every chunk's tool fragments, in order. */
  function DeltasOf(chunks: seq<StreamChunk>): seq<ToolCallDelta>
    decreases |chunks|
  {
    if chunks == [] then [] else DeltasOf(chunks[..|chunks| - 1]) + chunks[|chunks| - 1].toolCalls
  }

  /** The outcome of `stream_response`: the frames emitted, the messages appended, the fault raised, the model calls. */
  datatype StreamRun = StreamRun(events: seq<Event>, appended: seq<Message>, fault: Option<Fault>, modelCalls: nat)

  /** `stream_response(messages)` against the model script `script`, consumed to the end. */
  function StreamRespond(tb: Toolbox, script: seq<seq<StreamChunk>>): (r: StreamRun)
    decreases |script|
  {
    if script == [] then StreamRun([], [], Some(ModelUnavailable), 1)
    else
      var chunks := script[0];
      var events := ContentEvents(chunks);
      var deltas := DeltasOf(chunks);
      if deltas == [] then
        StreamRun(events + [StopFrame, DoneFrame], [AssistantMessage(Buffer(chunks), [])], None, 1)
      else
        var msg := AssistantMessage(Buffer(chunks), Collected(deltas));
        var round := ToolRound(tb, msg.toolCalls);
        if round.1.Some? then StreamRun(events, [msg] + round.0, round.1, 1)
        else
          var next := StreamRespond(tb, script[1..]);
          StreamRun(events + next.events, [msg] + round.0 + next.appended, next.fault, 1 + next.modelCalls)
  }

  lemma {:induction false} TextsAppend(a: seq<Event>, b: seq<Event>)
    ensures Texts(a + b) == Texts(a) + Texts(b)
    decreases |a|
  {
    if a != [] {
      assert (a + b)[0] == a[0];
      assert (a + b)[1..] == a[1..] + b;
      TextsAppend(a[1..], b);
    } else {
      assert a + b == b;
    }
  }

  lemma {:induction false} ContentEventsSnoc(chunks: seq<StreamChunk>, c: StreamChunk)
    ensures ContentEvents(chunks + [c]) ==
      ContentEvents(chunks) + (if Present(c.content) then [ContentFrame(PiiFilter.Redact(c.content.value))] else [])
    decreases |chunks|
  {
    if chunks == [] {
      assert [c][1..] == [];
    } else {
      assert (chunks + [c])[0] == chunks[0];
      assert (chunks + [c])[1..] == chunks[1..] + [c];
      ContentEventsSnoc(chunks[1..], c);
      var head := if Present(chunks[0].content) then [ContentFrame(PiiFilter.Redact(chunks[0].content.value))] else [];
      var tail := if Present(c.content) then [ContentFrame(PiiFilter.Redact(c.content.value))] else [];
      ConcatAssociative(head, ContentEvents(chunks[1..]), tail);
    }
  }

  /** What reading chunk `i` of a stream adds to the frames, the buffer and the tool fragments. */
  lemma StreamStep(chunks: seq<StreamChunk>, i: nat)
    requires i < |chunks|
    ensures ContentEvents(chunks[..i + 1]) == ContentEvents(chunks[..i]) +
      (if Present(chunks[i].content) then [ContentFrame(PiiFilter.Redact(chunks[i].content.value))] else [])
    ensures Buffer(chunks[..i + 1]) == Buffer(chunks[..i]) + ChunkText(chunks[i])
    ensures DeltasOf(chunks[..i + 1]) == DeltasOf(chunks[..i]) + chunks[i].toolCalls
  {
    assert chunks[..i + 1] == chunks[..i] + [chunks[i]];
    assert chunks[..i + 1][..i] == chunks[..i];
    ContentEventsSnoc(chunks[..i], chunks[i]);
  }

  /** One model call of `stream_response`, given the frames, buffer and tool fragments of its stream. */
  lemma StreamRespondStep(tb: Toolbox, script: seq<seq<StreamChunk>>, events: seq<Event>, buffer: string, deltas: seq<ToolCallDelta>)
    requires script != []
    requires events == ContentEvents(script[0]) && buffer == Buffer(script[0]) && deltas == DeltasOf(script[0])
    ensures deltas == [] ==>
      StreamRespond(tb, script) == StreamRun(events + [StopFrame, DoneFrame], [AssistantMessage(buffer, [])], None, 1)
    ensures deltas != [] ==>
      var msg := AssistantMessage(buffer, Collected(deltas));
      var round := ToolRound(tb, msg.toolCalls);
      var next := StreamRespond(tb, script[1..]);
      StreamRespond(tb, script) ==
        if round.1.Some? then StreamRun(events, [msg] + round.0, round.1, 1)
        else StreamRun(events + next.events, [msg] + round.0 + next.appended, next.fault, 1 + next.modelCalls)
  {
  }

  /** `content_buffer` is exactly the concatenation of the frames emitted, so the buffered message matches the stream. */
  lemma {:induction false} BufferIsEmitted(chunks: seq<StreamChunk>)
    ensures Buffer(chunks) == Texts(ContentEvents(chunks))
    decreases |chunks|
  {
    if chunks != [] {
      var init := chunks[..|chunks| - 1];
      var c := chunks[|chunks| - 1];
      assert chunks == init + [c];
      BufferIsEmitted(init);
      ContentEventsSnoc(init, c);
      var single := if Present(c.content) then [ContentFrame(PiiFilter.Redact(c.content.value))] else [];
      TextsAppend(ContentEvents(init), single);
      assert Texts(single) == ChunkText(c) by {
        if single != [] {
          assert single[1..] == [];
        }
      }
    }
  }

  /** Stop and done frames appear only in the well-formed ending `[..., StopFrame, DoneFrame]`. */
  predicate EndsOnce(events: seq<Event>) {
    |events| >= 2 && events[|events| - 2] == StopFrame && events[|events| - 1] == DoneFrame
    && forall k :: 0 <= k < |events| - 2 ==> events[k].ContentFrame?
  }

  /**
   * A completed stream emits only content frames and then exactly one stop
   * frame followed by the done frame; rounds with tool calls add no
   * ending of their own. A stream that aborts emits only content frames.
   */
  lemma {:induction false} StreamEnding(tb: Toolbox, script: seq<seq<StreamChunk>>)
    ensures StreamRespond(tb, script).fault.None? ==> EndsOnce(StreamRespond(tb, script).events)
    ensures StreamRespond(tb, script).fault.Some? ==> forall e :: e in StreamRespond(tb, script).events ==> e.ContentFrame?
    decreases |script|
  {
    if script != [] {
      var events := ContentEvents(script[0]);
      var deltas := DeltasOf(script[0]);
      StreamRespondStep(tb, script, events, Buffer(script[0]), deltas);
      if deltas == [] {
        EndsOnceAfterContent(events, [StopFrame, DoneFrame]);
      } else {
        var round := ToolRound(tb, Collected(deltas));
        if round.1.None? {
          StreamEnding(tb, script[1..]);
          var next := StreamRespond(tb, script[1..]);
          assert StreamRespond(tb, script).events == events + next.events;
          if next.fault.None? {
            EndsOnceAfterContent(events, next.events);
          }
        }
      }
    }
  }

  /** Content frames followed by a well-formed ending form a well-formed ending. */
  lemma EndsOnceAfterContent(events: seq<Event>, rest: seq<Event>)
    requires forall e :: e in events ==> e.ContentFrame?
    requires EndsOnce(rest) || rest == [StopFrame, DoneFrame]
    ensures EndsOnce(events + rest)
  {
    var all := events + rest;
    forall k | 0 <= k < |all| - 2
      ensures all[k].ContentFrame?
    {
      if k < |events| {
        assert all[k] == events[k] && events[k] in events;
      } else {
        assert all[k] == rest[k - |events|];
      }
    }
  }

  /**
   * A completed stream answers the last turn, the first whose chunks carry
   * no tool fragments; it appended that turn's buffer as an assistant
   * message, and asked the model once per turn up to it.
   */
  lemma {:induction false} StreamRounds(tb: Toolbox, script: seq<seq<StreamChunk>>)
    requires StreamRespond(tb, script).fault.None?
    ensures 1 <= StreamRespond(tb, script).modelCalls <= |script|
    ensures forall j :: 0 <= j < StreamRespond(tb, script).modelCalls - 1 ==> DeltasOf(script[j]) != []
    ensures DeltasOf(script[StreamRespond(tb, script).modelCalls - 1]) == []
    ensures StreamRespond(tb, script).appended != []
    ensures StreamRespond(tb, script).appended[|StreamRespond(tb, script).appended| - 1] ==
      AssistantMessage(Buffer(script[StreamRespond(tb, script).modelCalls - 1]), [])
    decreases |script|
  {
    if DeltasOf(script[0]) != [] {
      var tail := script[1..];
      StreamRounds(tb, tail);
      assert forall j :: 1 <= j < |script| ==> script[j] == tail[j - 1];
    }
  }

  /**
   * Conversely, when the first N streams carry tool fragments whose
   * assembled calls all parse and stream N+1 carries none, the stream
   * completes after N+1 model calls, appending stream N+1's buffered text
   * as the last message.
   */
  lemma StreamCompletes(tb: Toolbox, script: seq<seq<StreamChunk>>, n: nat)
    requires n < |script| && DeltasOf(script[n]) == []
    requires forall j :: 0 <= j < n ==> DeltasOf(script[j]) != [] && AllParse(tb, Collected(DeltasOf(script[j])))
    ensures StreamRespond(tb, script).fault.None?
    ensures StreamRespond(tb, script).modelCalls == n + 1
    ensures StreamRespond(tb, script).appended != []
    ensures StreamRespond(tb, script).appended[|StreamRespond(tb, script).appended| - 1] == AssistantMessage(Buffer(script[n]), [])
  {
    ParsedToolStreamsFromAll(tb, script, n);
    StreamCompletesAfter(tb, script, n);
  }

  /** The first `n` streams of `script` each carry tool fragments whose assembled calls all parse. */
  ghost predicate ParsedToolStreams(tb: Toolbox, script: seq<seq<StreamChunk>>, n: nat)
    decreases n
  {
    n == 0 ||
    (&& script != []
     && DeltasOf(script[0]) != [] && AllParse(tb, Collected(DeltasOf(script[0])))
     && ParsedToolStreams(tb, script[1..], n - 1))
  }

  lemma {:induction false} ParsedToolStreamsFromAll(tb: Toolbox, script: seq<seq<StreamChunk>>, n: nat)
    requires n <= |script|
    requires forall j :: 0 <= j < n ==> DeltasOf(script[j]) != [] && AllParse(tb, Collected(DeltasOf(script[j])))
    ensures ParsedToolStreams(tb, script, n)
    decreases n
  {
    if n > 0 {
      var tail := script[1..];
      assert forall j :: 0 <= j < n - 1 ==> tail[j] == script[j + 1];
      ParsedToolStreamsFromAll(tb, tail, n - 1);
    }
  }

  lemma {:induction false} StreamCompletesAfter(tb: Toolbox, script: seq<seq<StreamChunk>>, n: nat)
    requires n < |script| && DeltasOf(script[n]) == [] && ParsedToolStreams(tb, script, n)
    ensures StreamRespond(tb, script).fault.None?
    ensures StreamRespond(tb, script).modelCalls == n + 1
    ensures StreamRespond(tb, script).appended != []
    ensures StreamRespond(tb, script).appended[|StreamRespond(tb, script).appended| - 1] == AssistantMessage(Buffer(script[n]), [])
    decreases n
  {
    if n == 0 {
      StreamRespondStep(tb, script, ContentEvents(script[0]), Buffer(script[0]), DeltasOf(script[0]));
      assert StreamRespond(tb, script).appended == [AssistantMessage(Buffer(script[0]), [])];
    } else {
      var tail := script[1..];
      assert tail[n - 1] == script[n];
      StreamCompletesAfter(tb, tail, n - 1);
      StreamContinues(tb, script);
    }
  }

  /** A model call whose tool round completes hands over to the next call, which decides the ending. */
  lemma StreamContinues(tb: Toolbox, script: seq<seq<StreamChunk>>)
    requires script != [] && DeltasOf(script[0]) != [] && AllParse(tb, Collected(DeltasOf(script[0])))
    ensures StreamRespond(tb, script).fault == StreamRespond(tb, script[1..]).fault
    ensures StreamRespond(tb, script).modelCalls == 1 + StreamRespond(tb, script[1..]).modelCalls
    ensures StreamRespond(tb, script[1..]).appended != [] ==>
      StreamRespond(tb, script).appended[|StreamRespond(tb, script).appended| - 1] ==
      StreamRespond(tb, script[1..]).appended[|StreamRespond(tb, script[1..]).appended| - 1]
  {
    var deltas := DeltasOf(script[0]);
    StreamRespondStep(tb, script, ContentEvents(script[0]), Buffer(script[0]), deltas);
    var msg := AssistantMessage(Buffer(script[0]), Collected(deltas));
    ToolRoundComplete(tb, msg.toolCalls);
    var round := ToolRound(tb, msg.toolCalls);
    var next := StreamRespond(tb, script[1..]);
    var appended := [msg] + round.0 + next.appended;
    assert StreamRespond(tb, script).appended == appended;
  }

  /** Tool fragments are never forwarded: a stream whose chunks carry no text emits nothing but the ending. */
  lemma {:induction false} ToolFragmentsNotEmitted(chunks: seq<StreamChunk>)
    requires forall k :: 0 <= k < |chunks| ==> !Present(chunks[k].content)
    ensures ContentEvents(chunks) == []
    decreases |chunks|
  {
    if chunks != [] {
      assert forall k :: 0 <= k < |chunks| - 1 ==> chunks[1..][k] == chunks[k + 1];
      ToolFragmentsNotEmitted(chunks[1..]);
    }
  }
}
