/**
 * The values app.py passes between the chat UI, the host and the chat model:
 * tool-call requests, model responses, API messages and UI transcript entries.
 */
module Messages {
  import opened Wrappers

  const SystemRole := "system"
  const UserRole := "user"
  const AssistantRole := "assistant"

  /** The finish reason with which the model asks for tool calls. */
  const ToolCallsReason := "tool_calls"

  /** A tool-call request of the model: correlation id, function name, decoded arguments. */
  datatype ToolCall = ToolCall(id: string, name: string, arguments: map<string, string>)

  /** The assistant message object of a completion (its text, if any, and its tool calls). */
  datatype Completion = Completion(content: Option<string>, toolCalls: seq<ToolCall>)

  /** The first choice of a chat-completion response. */
  datatype Response = Response(finishReason: string, completion: Completion)

  /** An element of the message list sent to the model. */
  datatype Message =
    | Text(role: string, content: Option<string>)            // {"role": ..., "content": ...}
    | CompletionMessage(completion: Completion)               // the model's own message, appended as is
    | ToolResult(payload: string, toolCallId: string)         // {"role": "tool", "content": ..., "tool_call_id": ...}

  /** An entry of the chat transcript shown by the UI ({"role": ..., "content": ...}). */
  datatype Entry = Entry(role: string, content: Option<string>)
}
