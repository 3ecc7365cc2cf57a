/** The shapes exchanged between the planner (Yin), the executor (Yang) and
    the chat-completion capability. */
module Chat {
  import Json

  /** One role-tagged chat message. */
  datatype Message = Message(role: string, content: string)

  /** The planner's row context, `{"row_data": row}`. */
  datatype Context = Context(rowData: Json.Row)

  /** The task handed to the executor: `{"messages": [...], "context": ...}`. */
  datatype Task = Task(messages: seq<Message>, context: Context)

  /** What one chat-completion request yields: the reply text, or the text
      of the exception the client raised (transport, authentication, rate
      limit, or a reply without content). */
  datatype Completion = Failed(error: string) | Content(text: string)

  /** A chat-completion capability: messages in, completion out. */
  type Client = seq<Message> -> Completion
}
