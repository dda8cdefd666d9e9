/** The parts of the chat request and response types (crate::types::chat)
    that the client reads: choices, their messages' optional tool calls, and
    each call's kind. */
module ChatTypes {
  import opened Errors

  const FunctionKind := "function"

  datatype ToolCall = ToolCall(id: string, kind: string, functionName: string, arguments: string)

  datatype Message = Message(role: string, content: string, toolCalls: Option<seq<ToolCall>>)

  datatype Choice = Choice(message: Message, finishReason: Option<string>)

  datatype ChatCompletionResponse = ChatCompletionResponse(id: string, model: string, choices: seq<Choice>)

  datatype ChatCompletionRequest = ChatCompletionRequest(model: string, messages: seq<Message>)

  /** The tool calls of a choice; a message without `tool_calls` has none. */
  function CallsOf(c: Choice): seq<ToolCall> {
    if c.message.toolCalls.Some? then c.message.toolCalls.value else []
  }
}
