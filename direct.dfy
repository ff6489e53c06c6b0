/** The direct-messages page (app/direct/page.tsx): the conversation list, the
    open conversation's message log and the message being typed. The realtime
    channel is reduced to its insert handler, and every backend reply is a
    parameter of the handler that awaits it. */
module Direct {
  import opened Common
  import opened Types

  /** The row `handleSend` asks `sendMessage` to insert. */
  datatype OutgoingMessage = OutgoingMessage(conversationId: string, senderId: string, content: string)

  /** The name shown for a conversation. */
  function ConversationLabel(c: Conversation): (r: string)
    ensures Truthy(c.name) ==> r == c.name.value
    ensures !Truthy(c.name) ==> r == "Диалог"
  {
    OrElse(c.name, "Диалог")
  }

  /** The sender's name and a colon, when the sender has a non-empty username. */
  function SenderPrefix(m: Message): (r: string)
    ensures m.sender.Some? && m.sender.value.username != "" ==> r == m.sender.value.username + ": "
    ensures !(m.sender.Some? && m.sender.value.username != "") ==> r == ""
  {
    if m.sender.Some? && m.sender.value.username != "" then m.sender.value.username + ": " else ""
  }

  /** The last-message line under a conversation: nothing without a last
      message, otherwise the sender prefix and then the text or "Вложение". */
  function Preview(c: Conversation): (r: Option<string>)
    ensures r.None? <==> c.lastMessage.None?
    ensures r.Some? ==> r.value == SenderPrefix(c.lastMessage.value) + OrElse(c.lastMessage.value.content, "Вложение")
  {
    match c.lastMessage
    case None => None
    case Some(m) => Some(SenderPrefix(m) + OrElse(m.content, "Вложение"))
  }

  /** A preview always ends with the message text, or with "Вложение" when the
      message has no text. */
  lemma PreviewEndsWithContent(c: Conversation)
    requires c.lastMessage.Some?
    ensures var p := Preview(c).value;
      var body := if Truthy(c.lastMessage.value.content) then c.lastMessage.value.content.value else "Вложение";
      |body| <= |p| && p[|p| - |body|..] == body
  {
  }

  /** What the realtime insert handler does to the log: drops the signed-in
      user's own message (it was already appended by `handleSend`), appends
      any other at the end. */
  function AfterRealtimeInsert(messages: seq<Message>, m: Message, currentUser: Option<Profile>): (r: seq<Message>)
    ensures currentUser.Some? && m.senderId == currentUser.value.id ==> r == messages
    ensures !(currentUser.Some? && m.senderId == currentUser.value.id) ==> r == messages + [m]
  {
    if currentUser.Some? && m.senderId == currentUser.value.id then messages else messages + [m]
  }

  /** No id check is made: a message delivered twice is logged twice. */
  lemma RealtimeDuplicateIsKept(messages: seq<Message>, m: Message, currentUser: Option<Profile>)
    requires !(currentUser.Some? && m.senderId == currentUser.value.id)
    ensures var twice := AfterRealtimeInsert(AfterRealtimeInsert(messages, m, currentUser), m, currentUser);
      |twice| == |messages| + 2 && twice[|twice| - 1] == twice[|twice| - 2] == m
  {
  }

  /** The page's state. */
  class Inbox {
    var currentUser: Option<Profile>
    var conversations: seq<Conversation>
    var loadingConversations: bool
    var selectedConversationId: Option<string>
    var messages: seq<Message>
    var loadingMessages: bool
    var newMessage: string
    var isNewChatOpen: bool
    var userQuery: string
    var userResults: seq<Profile>

    /** The page as first rendered, with the `?id=` search parameter applied. */
    constructor (currentUser: Option<Profile>, idParam: Option<string>)
      ensures this.currentUser == currentUser && conversations == [] && loadingConversations
      ensures selectedConversationId == (if Truthy(idParam) then idParam else None)
      ensures messages == [] && !loadingMessages && newMessage == ""
      ensures !isNewChatOpen && userQuery == "" && userResults == []
    {
      this.currentUser := currentUser;
      conversations := [];
      loadingConversations := true;
      selectedConversationId := if Truthy(idParam) then idParam else None;
      messages := [];
      loadingMessages := false;
      newMessage := "";
      isNewChatOpen := false;
      userQuery := "";
      userResults := [];
    }

    /** The conversations effect: nothing is fetched without a user; a throw
        keeps the list; loading ends on every path. */
    method LoadConversations(fetched: Result<seq<Conversation>>)
      modifies this`conversations, this`loadingConversations
      ensures !loadingConversations
      ensures conversations == if currentUser.Some? && fetched.Ok? then fetched.value else old(conversations)
    {
      if currentUser.None? {
        loadingConversations := false;
        return;
      }
      if fetched.Ok? {
        conversations := fetched.value;
      }
      loadingConversations := false;
    }

    method SelectConversation(id: string)
      modifies this`selectedConversationId
      ensures selectedConversationId == Some(id)
    {
      selectedConversationId := Some(id);
    }

    /** The messages effect: with a conversation selected, the fetched list
        replaces the log; a throw keeps it. */
    method LoadMessages(fetched: Result<seq<Message>>)
      modifies this`messages, this`loadingMessages
      ensures !Truthy(selectedConversationId) ==> messages == old(messages) && loadingMessages == old(loadingMessages)
      ensures Truthy(selectedConversationId) ==>
        !loadingMessages && messages == if fetched.Ok? then fetched.value else old(messages)
    {
      if !Truthy(selectedConversationId) {
        return;
      }
      loadingMessages := true;
      if fetched.Ok? {
        messages := fetched.value;
      }
      loadingMessages := false;
    }

    method OnRealtimeInsert(m: Message)
      modifies this`messages
      ensures messages == AfterRealtimeInsert(old(messages), m, currentUser)
    {
      if currentUser.Some? && m.senderId == currentUser.value.id {
        return;
      }
      messages := messages + [m];
    }

    /** `handleSend`. Returns the row it asks to insert, if any; `sent` is
        what `sendMessage` returns or throws. */
    method HandleSend(sent: Result<Message>) returns (request: Option<OutgoingMessage>)
      modifies this`messages, this`newMessage
      ensures request.None? <==> currentUser.None? || !Truthy(selectedConversationId) || Trim(old(newMessage)) == ""
      ensures request.Some? ==>
        request.value == OutgoingMessage(selectedConversationId.value, currentUser.value.id, Trim(old(newMessage)))
      ensures request.Some? && sent.Ok? ==> messages == old(messages) + [sent.value] && newMessage == ""
      ensures request.None? || sent.Err? ==> messages == old(messages) && newMessage == old(newMessage)
    {
      if currentUser.None? || !Truthy(selectedConversationId) || Trim(newMessage) == "" {
        return None;
      }
      request := Some(OutgoingMessage(selectedConversationId.value, currentUser.value.id, Trim(newMessage)));
      if sent.Ok? {
        messages := messages + [sent.value];
        newMessage := "";
      }
    }

    /** `handleSearchUsers` in the new-chat dialog. `reply` is the profile
        query's reply; it is asked for only with a signed-in user and a query
        that is not blank. A query error is thrown and caught, keeping the
        previous results; null data gives no results. */
    method HandleSearchUsers(q: string, reply: Reply<seq<Profile>>) returns (searched: bool)
      modifies this`userQuery, this`userResults
      ensures userQuery == q
      ensures searched <==> currentUser.Some? && !AllSpace(q)
      ensures !searched ==> userResults == []
      ensures searched && reply.Data? ==> userResults == reply.value
      ensures searched && reply.NullData? ==> userResults == []
      ensures searched && reply.Failure? ==> userResults == old(userResults)
    {
      userQuery := q;
      TrimEmptyIff(q);
      if currentUser.None? || Trim(q) == "" {
        userResults := [];
        return false;
      }
      searched := true;
      match reply
      case Data(rows) => userResults := rows;
      case NullData => userResults := [];
      case Failure(_) =>
    }

    /** `handleStartConversation`. Returns the participant ids it passes to
        `createConversation`; `created` is what that returns or throws. */
    method HandleStartConversation(user: Profile, created: Result<Conversation>) returns (participants: Option<seq<string>>)
      modifies this`conversations, this`isNewChatOpen, this`userQuery, this`userResults, this`selectedConversationId
      ensures participants.None? <==> currentUser.None?
      ensures participants.Some? ==> participants.value == [currentUser.value.id, user.id]
      ensures participants.Some? && created.Ok? ==>
        conversations == [created.value] + old(conversations)
        && selectedConversationId == Some(created.value.id)
        && !isNewChatOpen && userQuery == "" && userResults == []
      ensures participants.None? || created.Err? ==>
        conversations == old(conversations) && selectedConversationId == old(selectedConversationId)
        && isNewChatOpen == old(isNewChatOpen) && userQuery == old(userQuery) && userResults == old(userResults)
    {
      if currentUser.None? {
        return None;
      }
      participants := Some([currentUser.value.id, user.id]);
      if created.Ok? {
        conversations := [created.value] + conversations;
        isNewChatOpen := false;
        userQuery := "";
        userResults := [];
        selectedConversationId := Some(created.value.id);
      }
    }
  }
}
