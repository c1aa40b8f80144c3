/** The records shared by the chat and insight components. */
module Types {

  /** Who wrote a chat message. */
  datatype Role = User | Agent

  /** A transcript entry of the non-streaming chat. */
  datatype ChatMessage = ChatMessage(role: Role, content: string)

  /** One structured insight returned by the insight requests. */
  datatype Insight = Insight(topic: string, value: string, strategy: string)
}
