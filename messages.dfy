/** The chat messages the graphs pass around: the kind of each message (its class
    in the message library) and its text content. */
module Messages {
  datatype Role = Human | AI | Tool | System

  datatype Message = Message(role: Role, content: string)

  function HumanMsg(content: string): Message {
    Message(Human, content)
  }

  function AIMsg(content: string): Message {
    Message(AI, content)
  }
}
