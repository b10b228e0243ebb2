/**
 * The conversation list: deriving each conversation's first user message
 * from the fetched history, turning it into a short title, and keeping the
 * list when conversations are fetched or created.
 */
module ConversationList {
  import opened Types
  import opened Text

  /** A listed conversation together with its derived `first_message`. */
  datatype ConversationWithFirstMessage = ConversationWithFirstMessage(
    conversation: Conversation,
    firstMessage: Option<string>)

  const MaxTitleWords := 5
  const EmptyTitle := "Empty Conversation"
  const Ellipsis := "..."

  predicate HasNoUserMessage(messages: seq<Message>) {
    forall i :: 0 <= i < |messages| ==> messages[i].role != User
  }

  /** `messages.filter(msg => msg.role === 'user')` */
  function UserMessages(messages: seq<Message>): seq<Message> {
    if messages == [] then []
    else (if messages[0].role == User then [messages[0]] else []) + UserMessages(messages[1..])
  }

  /** The content of the first user message, absent when there is none or no history at all. */
  function FirstUserMessage(messages: Option<seq<Message>>): Option<string> {
    var userMessages := if messages.Some? then UserMessages(messages.value) else [];
    if |userMessages| > 0 then Some(userMessages[0].content) else None
  }

  lemma {:induction false} UserMessagesEmptyIff(messages: seq<Message>)
    ensures UserMessages(messages) == [] <==> HasNoUserMessage(messages)
  {
    if messages != [] {
      UserMessagesEmptyIff(messages[1..]);
      if messages[0].role != User {
        forall i | 0 <= i < |messages| && HasNoUserMessage(messages[1..])
          ensures messages[i].role != User
        {
          if i > 0 { assert messages[i] == messages[1..][i - 1]; }
        }
      }
    }
  }

  lemma {:induction false} UserMessagesHead(messages: seq<Message>, i: nat)
    requires i < |messages| && messages[i].role == User
    requires HasNoUserMessage(messages[..i])
    ensures |UserMessages(messages)| > 0 && UserMessages(messages)[0] == messages[i]
  {
    if i > 0 {
      assert messages[0] == messages[..i][0];
      assert messages[1..][..i - 1] == messages[..i][1..];
      UserMessagesHead(messages[1..], i - 1);
    }
  }

  /** `first_message` is the content of the first message, in list order, whose role is user. */
  lemma FirstUserMessageIsFirst(messages: seq<Message>, i: nat)
    requires i < |messages| && messages[i].role == User
    requires HasNoUserMessage(messages[..i])
    ensures FirstUserMessage(Some(messages)) == Some(messages[i].content)
  {
    UserMessagesHead(messages, i);
  }

  /** `first_message` is undefined exactly when there is no history or no user message in it. */
  lemma FirstUserMessageAbsentIff(messages: Option<seq<Message>>)
    ensures FirstUserMessage(messages).None? <==> messages.None? || HasNoUserMessage(messages.value)
  {
    if messages.Some? {
      UserMessagesEmptyIff(messages.value);
    }
  }

  /**
   * The transform in `fetchConversations`: every conversation, in the same
   * order and with all its fields, paired with its first user message.
   */
  function WithFirstMessages(conversations: seq<Conversation>): (r: seq<ConversationWithFirstMessage>)
    ensures |r| == |conversations|
    ensures forall i :: 0 <= i < |r| ==>
              r[i].conversation == conversations[i]
              && r[i].firstMessage == FirstUserMessage(conversations[i].messages)
  {
    if conversations == [] then []
    else
      [ConversationWithFirstMessage(conversations[0], FirstUserMessage(conversations[0].messages))]
      + WithFirstMessages(conversations[1..])
  }

  /** `getConversationTitle`: the first five space-separated words, `...` when there were more. */
  function Title(firstMessage: Option<string>): string {
    if firstMessage.None? || firstMessage.value == "" then EmptyTitle
    else
      var words := Split(firstMessage.value, ' ');
      Join(words[..if |words| < MaxTitleWords then |words| else MaxTitleWords], ' ')
      + (if |words| > MaxTitleWords then Ellipsis else "")
  }

  /** Without a first message, or with an empty one, the title is the placeholder. */
  lemma TitleOfMissingMessage(firstMessage: Option<string>)
    requires firstMessage.None? || firstMessage.value == ""
    ensures Title(firstMessage) == EmptyTitle
  {
  }

  /** A message of at most five words is its own title, since splitting and joining round-trip. */
  lemma TitleOfShortMessage(s: string)
    requires s != "" && |Split(s, ' ')| <= MaxTitleWords
    ensures Title(Some(s)) == s
  {
    var words := Split(s, ' ');
    assert words[..|words|] == words;
    JoinSplit(s, ' ');
  }

  /**
   * A longer message is cut after its fifth word: the title is a prefix of the
   * message that stops just before a space, holds exactly the first five words,
   * and is followed by `...`.
   */
  lemma TitleOfLongMessage(s: string)
    requires |Split(s, ' ')| > MaxTitleWords
    ensures var t := Title(Some(s));
            var head := t[..|t| - |Ellipsis|];
            && |t| >= |Ellipsis| && t[|t| - |Ellipsis|..] == Ellipsis
            && |head| < |s| && head == s[..|head|] && s[|head|] == ' '
            && Split(head, ' ') == Split(s, ' ')[..MaxTitleWords]
  {
    var words := Split(s, ' ');
    var first, rest := words[..MaxTitleWords], words[MaxTitleWords..];
    var head := Join(first, ' ');
    assert s != "";
    assert Title(Some(s)) == head + Ellipsis;
    JoinSplit(s, ' ');
    assert first + rest == words;
    JoinAppend(first, rest, ' ');
    assert s == head + [' '] + Join(rest, ' ');
    SplitJoin(first, ' ');
  }

  /** The list component's state. */
  class ConversationListState {
    var conversations: seq<ConversationWithFirstMessage>
    var isLoading: bool
    /** The last conversation handed to `onSelectConversation`. */
    var selected: Option<Conversation>

    constructor ()
      ensures conversations == [] && isLoading && selected == None
    {
      conversations := [];
      isLoading := true;
      selected := None;
    }

    /** `fetchConversations` up to the `await`: the list shows as loading while the request is out. */
    method FetchConversations()
      modifies this`isLoading
      ensures isLoading
    {
      isLoading := true;
    }

    /**
     * `fetchConversations` after the `await`: `response` is the list the
     * backend returned, or `None` when the request threw. Loading is over
     * either way.
     */
    method CompleteFetchConversations(response: Option<seq<Conversation>>)
      modifies this`conversations, this`isLoading
      ensures !isLoading
      ensures conversations == if response.Some? then WithFirstMessages(response.value) else old(conversations)
    {
      if response.Some? {
        conversations := WithFirstMessages(response.value);
      }
      isLoading := false;
    }

    /**
     * `createNewConversation`: on success the new conversation, with no first
     * message yet, goes in front of the others and is selected; on failure
     * nothing changes.
     */
    method CreateNewConversation(response: Option<Conversation>)
      modifies this`conversations, this`selected
      ensures response.Some? ==>
                && conversations == [ConversationWithFirstMessage(response.value, None)] + old(conversations)
                && selected == response
      ensures response.None? ==> conversations == old(conversations) && selected == old(selected)
    {
      if response.Some? {
        conversations := [ConversationWithFirstMessage(response.value, None)] + conversations;
        selected := response;
      }
    }
  }
}
