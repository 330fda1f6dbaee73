/** The unified event stream of all agents (internal/agent/types.go). */
module AgentEvents {

  datatype Reason = Normal | Interrupted | Timeout | Failed

  datatype Event =
    | System(sessionId: string, threadId: string, model: string, contextWindow: int)
    | Text(delta: string)
    | FinalText(content: string)
    | Thinking(delta: string)
    | ToolUse(id: string, name: string, input: string)
    | ToolResult(id: string, output: string, isError: bool)
    | AskUser(askId: string)
    | Usage(inputTokens: int, outputTokens: int, cachedInputTokens: int, reasoningOutputTokens: int)
    | Done(sessionId: string, threadId: string, reason: Reason)
    | Error(message: string, reason: Reason)
}
