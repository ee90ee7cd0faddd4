/** The conversation's data model: roles, messages, tool requests and tool-call outcomes. */
module ChatTypes {
  import opened Options
  import opened Json

  /** Who wrote a message. */
  datatype Role = System | User | Assistant {
    /** The role as it is written in a message. */
    function Name(): string {
      match this
      case System => "system"
      case User => "user"
      case Assistant => "assistant"
    }
  }

  /** Reads a role name; any text other than the three names is not a role. */
  function ParseRole(s: string): (r: Option<Role>)
    ensures r.Some? ==> r.value.Name() == s
    ensures r.None? ==> s !in {"system", "user", "assistant"}
  {
    if s == "system" then Some(System)
    else if s == "user" then Some(User)
    else if s == "assistant" then Some(Assistant)
    else None
  }

  /** The three names are exactly the roles: every role reads back from its name. */
  lemma RoleNamesRoundTrip(r: Role)
    ensures ParseRole(r.Name()) == Some(r)
  {
  }

  /** Writing direction of a text. */
  datatype Direction = Rtl | Ltr

  /** One message of the conversation. `isToolOutput` and `toolName` are optional. */
  datatype ChatMessage = ChatMessage(
    id: string,
    role: Role,
    content: string,
    timestamp: int,
    isToolOutput: Option<bool>,
    toolName: Option<string>)

  /** The shape of a tool request as the language model writes it. The model itself builds
      requests as JSON values directly (`LlmClient.RequestOf`), so this type only records
      the declared shape. */
  datatype ToolCall = ToolCall(tool: string, args: seq<(string, Json)>)

  /** The outcome of looking for a tool request in a model response. */
  datatype ToolResult = ToolResult(
    isToolCall: bool,
    toolName: Option<string>,
    toolResult: Option<Json>,
    finalText: Option<string>)

  /** The shape every outcome built by the tool manager has: plain text carries the text,
      a tool call carries the tool's name and result. */
  predicate WellShaped(r: ToolResult) {
    && (!r.isToolCall ==> r.finalText.Some? && r.toolName.None? && r.toolResult.None?)
    && (r.isToolCall ==> r.toolName.Some? && r.toolResult.Some? && r.finalText.None?)
  }

  function PlainText(text: string): ToolResult {
    ToolResult(false, None, None, Some(text))
  }

  function ToolCalled(name: string, result: Json): ToolResult {
    ToolResult(true, Some(name), Some(result), None)
  }

  /** A message that records a tool use: flagged as tool output, with a non-empty tool name. */
  predicate IsToolMarker(m: ChatMessage) {
    m.isToolOutput == Some(true) && m.toolName.Some? && m.toolName.value != ""
  }
}
