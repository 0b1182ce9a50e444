/** Chat messages as the agents and the LLM cores exchange them (Python dicts). */
module Chat {
  import opened Wrappers
  import opened JsonModel

  /** The `"content"` entry: missing, `None`, or a string. */
  datatype Content = Absent | Null | Text(text: string)

  /**
   * A message dict: its `"role"` (`None` when the key is missing), its
   * `"content"`, and the optional `"tool_calls"` and `"tool_call_id"` entries.
   */
  datatype Message = Message(role: Option<string>, content: Content, toolCalls: Option<Json>, toolCallId: Option<string>)

  /** `{"role": role, "content": text}`. */
  function Plain(role: string, text: string): Message {
    Message(Some(role), Text(text), None, None)
  }

  /** How an f-string shows a content value that is present. */
  function Show(c: Content): string
    requires !c.Absent?
  {
    match c
    case Null => "None"
    case Text(t) => t
  }
}
