/** The records of the session log. Payloads stay opaque, except for what decoding
    one as a fork reference yields. */
module Events {
  import opened Wrappers

  datatype Kind =
    | SessionStart | SessionFork | SessionEnd
    | TurnStart | TurnEnd | StepStart | StepEnd
    | UserMessage | AssistantMessage | ToolCall | ToolResult
    | SubagentSpawn | SubagentDone
    | HookVerdict | OtherKind(name: string)

  datatype ForkRef = ForkRef(originTrace: string, originSeq: int)

  datatype Payload = Payload(raw: string, asFork: Option<ForkRef>)

  datatype Event = Event(
    seqNo: int, ts: int, traceId: string, spanId: string, kind: Kind, actor: string,
    payload: Payload, usageIn: Option<int>, usageOut: Option<int>)
}
