/**
 * `DialClient`: the tool-calling orchestration loop, step by step. Each
 * method appends to the shared message list as the source does and is
 * proved to agree with the reference semantics of module `DialSpec`.
 */
module Dial {
  import opened Wrappers
  import opened Messages
  import opened McpTypes
  import PiiFilter
  import opened ToolCallAssembly
  import opened DialSpec

  class DialClient {
    /** The descriptors offered to the model with every request. */
    const tools: seq<ToolDescriptor>
    /** The deployment name requests are sent to. */
    const model: string
    /** `tool_name_client_map`, together with what the tool servers and `json.loads` answer. */
    const toolbox: Toolbox

    constructor (model: string, tools: seq<ToolDescriptor>, toolbox: Toolbox)
      ensures this.model == model && this.tools == tools && this.toolbox == toolbox
    {
      this.model := model;
      this.tools := tools;
      this.toolbox := toolbox;
    }

    /**
     * `_call_tools`: appends one TOOL message per call of `aiMessage`, in
     * order, and returns the fault when a call's arguments do not parse
     * (the messages of the earlier calls stay appended).
     */
    method CallTools(aiMessage: Message, history: MessageLog) returns (fault: Option<Fault>)
      modifies history
      ensures history.items == old(history.items) + ToolRound(toolbox, aiMessage.toolCalls).0
      ensures fault == ToolRound(toolbox, aiMessage.toolCalls).1
    {
      var calls := aiMessage.toolCalls;
      ghost var start := history.items;
      var i := 0;
      while i < |calls|
        invariant 0 <= i <= |calls|
        invariant start + ToolRound(toolbox, calls).0 == history.items + ToolRound(toolbox, calls[i..]).0
        invariant ToolRound(toolbox, calls).1 == ToolRound(toolbox, calls[i..]).1
      {
        var call := calls[i];
        var toolName := call.name;
        var toolArgs := toolbox.parse(call.arguments);
        ToolRoundStep(toolbox, calls, i);
        if toolArgs.None? {
          return Some(MalformedArguments(call.arguments));
        }
        ConcatAssociative(history.items, [Answer(toolbox, call, toolArgs.value)], ToolRound(toolbox, calls[i + 1..]).0);
        if !Known(toolbox, toolName) {
          history.Append(ToolMessage(NotFoundText(toolName), call.id));
        } else {
          var reply := toolbox.serve(toolbox.providers[toolName.value], toolName.value, toolArgs.value);
          var toolResult: ToolValue;
          match reply {
            case Success(content) => toolResult := ResultValue(content);
            case Failure(err) => toolResult := Text(FailedText(err));
          }
          history.Append(ToolMessage(Str(toolResult), call.id));
        }
        i := i + 1;
      }
      assert calls[i..] == [];
      return None;
    }

    /**
     * `response`: asks the model, and while the answer carries tool calls
     * appends it and its tool results and asks again; the final answer is
     * returned, not appended.
     */
    method Response(script: seq<Completion>, history: MessageLog) returns (outcome: Result<Message, Fault>, modelCalls: nat)
      modifies history
      decreases |script|
      ensures history.items == old(history.items) + Respond(toolbox, script).appended
      ensures outcome == Respond(toolbox, script).outcome
      ensures modelCalls == Respond(toolbox, script).modelCalls
    {
      if script == [] {
        return Failure(ModelUnavailable), 1;
      }
      var response := script[0];
      var content := response.content.GetOr("");
      var filteredContent := PiiFilter.FilterCreditCards(content);
      var aiMessage := AssistantMessage(filteredContent, []);
      if response.toolCalls != [] {
        aiMessage := aiMessage.(toolCalls := response.toolCalls);
      }
      RespondStep(toolbox, script, aiMessage);
      if aiMessage.toolCalls != [] {
        ghost var start := history.items;
        history.Append(aiMessage);
        var fault := CallTools(aiMessage, history);
        ghost var round := ToolRound(toolbox, aiMessage.toolCalls);
        ConcatAssociative(start, [aiMessage], round.0);
        if fault.Some? {
          return Failure(fault.value), 1;
        }
        var later: nat;
        outcome, later := Response(script[1..], history);
        ghost var next := Respond(toolbox, script[1..]);
        ConcatAssociative(start, [aiMessage] + round.0, next.appended);
        return outcome, 1 + later;
      }
      return Success(aiMessage), 1;
    }

    /**
     * `stream_response`, consumed to the end: the frames it yields, the
     * fault it raises, and the model calls it makes, appending to `history`
     * as it goes.
     */
    method StreamResponse(script: seq<seq<StreamChunk>>, history: MessageLog)
      returns (events: seq<Event>, fault: Option<Fault>, modelCalls: nat)
      modifies history
      decreases |script|
      ensures history.items == old(history.items) + StreamRespond(toolbox, script).appended
      ensures events == StreamRespond(toolbox, script).events
      ensures fault == StreamRespond(toolbox, script).fault
      ensures modelCalls == StreamRespond(toolbox, script).modelCalls
    {
      if script == [] {
        return [], Some(ModelUnavailable), 1;
      }
      var stream := script[0];
      var contentBuffer := "";
      var toolDeltas: seq<ToolCallDelta> := [];
      events := [];
      for i := 0 to |stream|
        invariant contentBuffer == Buffer(stream[..i])
        invariant toolDeltas == DeltasOf(stream[..i])
        invariant events == ContentEvents(stream[..i])
        invariant history.items == old(history.items)
      {
        var delta := stream[i];
        StreamStep(stream, i);
        if Present(delta.content) {
          var filteredContent := PiiFilter.FilterCreditCards(delta.content.value);
          events := events + [ContentFrame(filteredContent)];
          contentBuffer := contentBuffer + filteredContent;
        }
        if delta.toolCalls != [] {
          toolDeltas := toolDeltas + delta.toolCalls;
        }
      }
      assert stream[..|stream|] == stream;
      StreamRespondStep(toolbox, script, events, contentBuffer, toolDeltas);
      if toolDeltas != [] {
        var toolCalls := CollectToolCalls(toolDeltas);
        var aiMessage := AssistantMessage(contentBuffer, toolCalls);
        ghost var start := history.items;
        history.Append(aiMessage);
        var roundFault := CallTools(aiMessage, history);
        ghost var round := ToolRound(toolbox, toolCalls);
        ConcatAssociative(start, [aiMessage], round.0);
        if roundFault.Some? {
          return events, roundFault, 1;
        }
        var forwarded: seq<Event>;
        var later: nat;
        forwarded, fault, later := StreamResponse(script[1..], history);
        ConcatAssociative(start, [aiMessage] + round.0, StreamRespond(toolbox, script[1..]).appended);
        return events + forwarded, fault, 1 + later;
      }
      history.Append(AssistantMessage(contentBuffer, []));
      events := events + [StopFrame, DoneFrame];
      return events, None, 1;
    }
  }
}
