/**
 * Chat messages and the mutable message list that the orchestration loop
 * appends to (the Python `list[Message]` shared between the session
 * coordinator and the model client).
 */
module Messages {
  import opened Wrappers

  datatype Role = System | User | Assistant | Tool

  /**
   * A tool invocation request as carried by an assistant message:
   * `{"id", "type", "function": {"name", "arguments"}}`. The identifying
   * fields may be missing when they were assembled from stream fragments
   * that never carried them.
   */
  datatype ToolCall = ToolCall(id: Option<string>, name: Option<string>, arguments: string, callType: Option<string>)

  /** One turn of a conversation: `{role, content, tool_calls?, tool_call_id?}`. */
  datatype Message = Message(role: Role, content: string, toolCalls: seq<ToolCall>, toolCallId: Option<string>)

  function AssistantMessage(content: string, calls: seq<ToolCall>): Message {
    Message(Assistant, content, calls, None)
  }

  function ToolMessage(content: string, callId: Option<string>): Message {
    Message(Tool, content, [], callId)
  }

  /** The working history of one chat turn, appended to in place. */
  class MessageLog {
    var items: seq<Message>

    constructor (initial: seq<Message>)
      ensures items == initial
    {
      items := initial;
    }

    method Append(m: Message)
      modifies this
      ensures items == old(items) + [m]
    {
      items := items + [m];
    }
  }
}
