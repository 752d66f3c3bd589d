/** The conversation data exchanged with the language model: content blocks and messages. */
module Messages {

  datatype Role = User | Assistant

  /** A `tool_use` request from the model: call identifier, tool name and (serialised) input. */
  datatype ToolCall = ToolCall(id: string, name: string, input: string)

  /** The `content` of a `tool_result` block: the serialised tool output, or the serialised
      `{ error: ... }` object carrying an error description. */
  datatype ToolResultContent = Serialized(output: string) | ErrorPayload(error: string)

  datatype ContentBlock =
    | TextBlock(text: string)
    | ToolUseBlock(call: ToolCall)
    | ToolResultBlock(toolUseId: string, content: ToolResultContent)

  datatype Message = Message(role: Role, content: seq<ContentBlock>)
}
