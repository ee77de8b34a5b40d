/** Values exchanged between the planner form, the conversation logs and the agent. */
module Chat {

  datatype Option<+T> = None | Some(value: T)

  /** Who wrote a conversation entry: the `role` key of a message dictionary. */
  datatype Role = User | Assistant

  /** One entry of the active or archived log: `{"role": ..., "content": ...}`. */
  datatype Message = Message(role: Role, content: string)

  /** The four form fields as read on one run of the page. A selectbox left at its
      placeholder yields no value; it is written "" here, which the submit guard
      treats exactly like an empty string. */
  datatype Form = Form(destination: string, duration: string, budget: string, preference: string)

  /** What one call of the orchestrator agent does: it either finishes with a final
      output, or raises (network, model or tool failure), which propagates out of
      the handler with no local recovery. */
  datatype AgentOutcome = Reply(output: string) | Raised

  /** The submit guard on the three required fields; the preference is optional. */
  predicate Ready(f: Form)
  {
    f.destination != "" && f.duration != "" && f.budget != ""
  }
}
