/**
 * The mobile chat view: the same send guard as the desktop view, but the
 * user's message stays and the bot's reply is appended after it; and the
 * message box grows with its content up to a fixed height.
 *
 * As in the desktop view, the awaited request splits `handleSendMessage`
 * into `HandleSendMessage` (up to the request) and `CompleteSendMessage`
 * (when it settles).
 */
module MobileChatInterface {
  import opened Types
  import opened SendGuard

  /** The mobile view's message record: `{ role, content, timestamp }`. */
  datatype MobileMessage = MobileMessage(role: Role, content: string, timestamp: string)

  /** The textarea's inline `style.height`. */
  datatype Height = Auto | Px(pixels: nat)

  /** The tallest the message box grows, in pixels. */
  const MaxTextareaHeight: nat := 120

  /**
   * `Math.min(scrollHeight, 120)`: the box is as tall as its content but never
   * taller than the maximum.
   */
  function TextareaHeight(scrollHeight: nat): (h: nat)
    ensures h <= MaxTextareaHeight && h <= scrollHeight
    ensures h == scrollHeight || h == MaxTextareaHeight
  {
    if scrollHeight < MaxTextareaHeight then scrollHeight else MaxTextareaHeight
  }

  /** The message box element; its style is changed in place. */
  class TextArea {
    var height: Height

    constructor ()
      ensures height == Auto
    {
      height := Auto;
    }
  }

  class MobileChatInterfaceState {
    const conversationId: string
    const userId: string
    var messages: seq<MobileMessage>
    var newMessage: string
    var isSending: bool
    /** `messageInputRef.current`: the mounted message box, if any. */
    var input: TextArea?

    constructor (conversationId: string, userId: string, input: TextArea?)
      ensures this.conversationId == conversationId && this.userId == userId && this.input == input
      ensures messages == [] && newMessage == "" && !isSending
    {
      this.conversationId := conversationId;
      this.userId := userId;
      this.input := input;
      messages := [];
      newMessage := "";
      isSending := false;
    }

    /**
     * `adjustTextareaHeight`: the height is reset to `auto`, the content's
     * `scrollHeight` is measured, and the height becomes that, capped.
     */
    method AdjustTextareaHeight(scrollHeight: nat)
      modifies input
      ensures input != null ==> input.height == Px(TextareaHeight(scrollHeight))
    {
      if input != null {
        input.height := Auto;
        input.height := Px(TextareaHeight(scrollHeight));
      }
    }

    /** The textarea's `onChange`: the typed text becomes the input and the box is resized. */
    method OnChange(value: string, scrollHeight: nat)
      modifies this`newMessage, input
      ensures newMessage == value
      ensures input != null ==> input.height == Px(TextareaHeight(scrollHeight))
    {
      newMessage := value;
      AdjustTextareaHeight(scrollHeight);
    }

    /**
     * `handleSendMessage` up to the `await`: unless the guard returns early,
     * the user's message is appended, the input cleared, the box shrunk back to
     * `auto`, and the request for the backend returned.
     */
    method HandleSendMessage(timestamp: string) returns (request: Option<SendMessageRequest>)
      modifies this`messages, this`newMessage, this`isSending, input
      ensures request.None? <==> !CanSend(old(newMessage), old(isSending))
      ensures request.None? ==> unchanged(this) && (input != null ==> unchanged(input))
      ensures request.Some? ==>
                && request.value == SendMessageRequest(conversationId, userId, old(newMessage))
                && messages == old(messages) + [MobileMessage(User, old(newMessage), timestamp)]
                && newMessage == ""
                && isSending
                && (input != null ==> input.height == Auto)
    {
      if !CanSend(newMessage, isSending) {
        return None;
      }
      isSending := true;
      messages := messages + [MobileMessage(User, newMessage, timestamp)];
      var sent := newMessage;
      newMessage := "";
      if input != null {
        input.height := Auto;
      }
      request := Some(SendMessageRequest(conversationId, userId, sent));
    }

    /**
     * `handleSendMessage` after the `await`: the bot's reply, if the request
     * succeeded, is appended; nothing is removed; sending is over.
     */
    method CompleteSendMessage(reply: Option<MobileMessage>)
      requires isSending
      modifies this`messages, this`isSending
      ensures messages == old(messages) + (if reply.Some? then [reply.value] else [])
      ensures !isSending
    {
      if reply.Some? {
        messages := messages + [reply.value];
      }
      isSending := false;
    }
  }

  /**
   * One send from start to finish with nothing else in between: the list grows
   * by the user's message and, when the request succeeds, the reply after it.
   */
  method SendOnce(chat: MobileChatInterfaceState, timestamp: string, reply: Option<MobileMessage>)
      returns (request: Option<SendMessageRequest>)
    requires CanSend(chat.newMessage, chat.isSending)
    modifies chat, chat.input
    ensures request == Some(SendMessageRequest(chat.conversationId, chat.userId, old(chat.newMessage)))
    ensures chat.messages == old(chat.messages) + [MobileMessage(User, old(chat.newMessage), timestamp)]
                             + (if reply.Some? then [reply.value] else [])
    ensures |chat.messages| == |old(chat.messages)| + (if reply.Some? then 2 else 1)
    ensures chat.newMessage == "" && !chat.isSending
  {
    request := chat.HandleSendMessage(timestamp);
    chat.CompleteSendMessage(reply);
  }
}
