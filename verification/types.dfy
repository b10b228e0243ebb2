/**
 * The records the components exchange with the backend
 * (src/types/index.ts and the signature of `conversationService.sendMessage`).
 */
module Types {

  datatype Option<+T> = None | Some(value: T)

  /** `'user' | 'assistant'` */
  datatype Role = User | Assistant

  datatype Message = Message(
    id: string,
    conversationId: string,
    userId: string,
    content: string,
    role: Role,
    createdAt: string)

  /**
   * A conversation as the backend returns it. `messages` is present only when
   * the backend chose to include the history in the listing.
   */
  datatype Conversation = Conversation(
    id: string,
    userId: string,
    createdAt: string,
    updatedAt: string,
    lastMessageTime: string,
    messages: Option<seq<Message>>)

  /** The arguments of one `sendMessage(conversationId, userId, message)` request. */
  datatype SendMessageRequest = SendMessageRequest(conversationId: string, userId: string, message: string)
}
