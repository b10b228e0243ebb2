/**
 * The desktop chat view's send path: the guard, the optimistic user message,
 * and the replacement of that message by the backend's answer.
 *
 * `handleSendMessage` awaits one request. Its two halves are two methods:
 * `HandleSendMessage` runs up to the request, `CompleteSendMessage` runs when
 * the request settles. Between them other events may run, and they see
 * `isSending` set.
 */
module ChatInterface {
  import opened Types
  import opened SendGuard

  const TempIdPrefix := "temp-"

  /** The decimal digits of `n`, as a template literal prints an integer. */
  function Decimal(n: nat): string {
    if n < 10 then ["0123456789"[n]] else Decimal(n / 10) + ["0123456789"[n % 10]]
  }

  /** `` `temp-${Date.now()}` `` */
  function TempId(now: nat): string {
    TempIdPrefix + Decimal(now)
  }

  /** `messages.filter(msg => msg.id !== id)` */
  function WithoutId(messages: seq<Message>, id: string): (r: seq<Message>)
    ensures |r| <= |messages|
    ensures forall m :: m in r <==> m in messages && m.id != id
  {
    if messages == [] then []
    else (if messages[0].id != id then [messages[0]] else []) + WithoutId(messages[1..], id)
  }

  /** Filtering distributes over concatenation, so the kept messages keep their order. */
  lemma {:induction false} WithoutIdAppend(a: seq<Message>, b: seq<Message>, id: string)
    ensures WithoutId(a + b, id) == WithoutId(a, id) + WithoutId(b, id)
  {
    if a != [] {
      assert (a + b)[1..] == a[1..] + b;
      WithoutIdAppend(a[1..], b, id);
    } else {
      assert a + b == b;
    }
  }

  /** A list with no message carrying `id` is left as it is. */
  lemma {:induction false} WithoutIdUnaffected(messages: seq<Message>, id: string)
    requires forall m :: m in messages ==> m.id != id
    ensures WithoutId(messages, id) == messages
  {
    if messages != [] {
      assert forall m :: m in messages[1..] ==> m in messages;
      WithoutIdUnaffected(messages[1..], id);
    }
  }

  /**
   * Replacing the optimistic message: when the list is what it was before the
   * send plus the temporary message, and no earlier message has the temporary
   * id, the outcome is the earlier list followed by the reply.
   */
  lemma ReplaceOptimistic(before: seq<Message>, temp: Message, reply: Message)
    requires forall m :: m in before ==> m.id != temp.id
    ensures WithoutId(before + [temp], temp.id) + [reply] == before + [reply]
  {
    WithoutIdAppend(before, [temp], temp.id);
    WithoutIdUnaffected(before, temp.id);
    assert [temp][1..] == [];
  }

  /** The chat component's state for one conversation. */
  class ChatInterfaceState {
    const conversationId: string
    const userId: string
    var messages: seq<Message>
    var newMessage: string
    var isSending: bool
    /** The optimistic message of the send whose request has not settled yet. */
    var pending: Option<Message>

    ghost predicate Valid()
      reads this
    {
      isSending <==> pending.Some?
    }

    constructor (conversationId: string, userId: string)
      ensures Valid()
      ensures this.conversationId == conversationId && this.userId == userId
      ensures messages == [] && newMessage == "" && !isSending
    {
      this.conversationId := conversationId;
      this.userId := userId;
      messages := [];
      newMessage := "";
      isSending := false;
      pending := None;
    }

    /**
     * `handleSendMessage` up to the `await`. `now` is `Date.now()` and
     * `createdAt` the ISO time stamp. The result is the request sent to the
     * backend, or `None` when the guard returned early.
     */
    method HandleSendMessage(now: nat, createdAt: string) returns (request: Option<SendMessageRequest>)
      requires Valid()
      modifies this`messages, this`newMessage, this`isSending, this`pending
      ensures Valid()
      ensures request.None? <==> !CanSend(old(newMessage), old(isSending))
      ensures request.None? ==> unchanged(this)
      ensures request.Some? ==>
                var temp := Message(TempId(now), conversationId, userId, old(newMessage), User, createdAt);
                && request.value == SendMessageRequest(conversationId, userId, old(newMessage))
                && messages == old(messages) + [temp]
                && pending == Some(temp)
                && newMessage == ""
                && isSending
    {
      if !CanSend(newMessage, isSending) {
        return None;
      }
      isSending := true;
      var temp := Message(TempId(now), conversationId, userId, newMessage, User, createdAt);
      messages := messages + [temp];
      var sent := newMessage;
      newMessage := "";
      pending := Some(temp);
      request := Some(SendMessageRequest(conversationId, userId, sent));
    }

    /**
     * `handleSendMessage` after the `await`: `reply` is the backend's message,
     * or `None` when the request threw. On success every message with the
     * temporary id is dropped and the reply goes last; on failure the list
     * keeps the optimistic message. Either way sending is over.
     */
    method CompleteSendMessage(reply: Option<Message>)
      requires Valid() && pending.Some?
      modifies this`messages, this`isSending, this`pending
      ensures Valid()
      ensures messages == if reply.Some? then WithoutId(old(messages), old(pending).value.id) + [reply.value]
                          else old(messages)
      ensures !isSending
    {
      if reply.Some? {
        messages := WithoutId(messages, pending.value.id) + [reply.value];
      }
      isSending := false;
      pending := None;
    }
  }

  /**
   * One send from start to finish with nothing else in between. When no
   * earlier message carries the temporary id, success leaves the earlier list
   * followed by the reply (the optimistic message is replaced), and failure
   * leaves the optimistic message in place.
   */
  method SendOnce(chat: ChatInterfaceState, now: nat, createdAt: string, reply: Option<Message>)
      returns (request: Option<SendMessageRequest>)
    requires chat.Valid() && CanSend(chat.newMessage, chat.isSending)
    requires forall m :: m in chat.messages ==> m.id != TempId(now)
    modifies chat
    ensures chat.Valid()
    ensures request == Some(SendMessageRequest(chat.conversationId, chat.userId, old(chat.newMessage)))
    ensures reply.Some? ==> chat.messages == old(chat.messages) + [reply.value]
    ensures reply.None? ==>
              chat.messages == old(chat.messages)
                               + [Message(TempId(now), chat.conversationId, chat.userId, old(chat.newMessage), User, createdAt)]
    ensures chat.newMessage == "" && !chat.isSending
  {
    ghost var before := chat.messages;
    request := chat.HandleSendMessage(now, createdAt);
    if reply.Some? {
      ReplaceOptimistic(before, chat.pending.value, reply.value);
    }
    chat.CompleteSendMessage(reply);
  }
}
