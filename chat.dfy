/**
  The chat transcript the orchestrator keeps (client.py:277-488) and the two
  outside parties it talks to: the language model and the tool server.  Both
  are given to the model as functions, so that every answer they can give is
  covered.
*/
module Chat {
  import opened Wrappers
  import opened Json

  /**
    A tool call requested by the model.  `arguments` is `None` when the
    argument text does not decode as JSON; the client then uses `{}`.
  */
  datatype ToolCall = ToolCall(id: string, name: string, arguments: Option<Args>) {
    /** `json.loads(arguments or "{}")`, falling back to `{}` on a decode error. */
    function Args(): Args {
      arguments.GetOr([])
    }
  }

  /** One entry of `messages`. */
  datatype Message =
    | SystemMsg(content: string)
    | UserMsg(content: string)
    | AssistantMsg(text: Option<string>, toolCalls: seq<ToolCall>)
    | ToolMsg(toolCallId: string, result: string)

  /** What one `chat.completions.create` call gives back: a first choice, or an exception. */
  datatype LlmReply =
    | Reply(finishReason: Option<string>, content: Option<string>, toolCalls: seq<ToolCall>)
    | CallFailed(error: string)

  /** The model's `n`-th reply overall, given the transcript it is sent. */
  type Llm = (nat, seq<Message>) -> LlmReply

  /** What `session.call_tool(name, args)` does under the 600-second `wait_for`. */
  datatype ToolOutcome =
    | Returned(text: string)
    | TimedOut
    | Raised(error: string)

  /** The tool server's answer to the `n`-th tool execution overall. */
  type ToolServer = (nat, string, Args) -> ToolOutcome

  /** `choice.message.content or ""` */
  function TextOf(content: Option<string>): string {
    if content.Some? then content.value else ""
  }
}
